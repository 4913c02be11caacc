/** The publish gate: what holds of every copy of a repair row ever held or
    written, in every interleaving. */
module RepairProofs {
  import opened Base
  import opened PatchPolicy
  import opened Repair
  import A = Approvals
  import P = ApprovalProofs

  // ----- what an approval reference in a copy is worth -----

  predicate Consumed(requests: A.Requests, id: Id) {
    id in requests && requests[id].state == A.Consumed
  }

  /** The request was made by the repair's creator, at high risk, for admins and maintainers, for one day. */
  predicate AskedFor(info: A.Info, c: Row) {
    && info.requesterId == c.info.createdBy && info.risk == A.High && info.eligibleRoles == [A.Admin, A.Maintainer]
    && info.expiresAt == info.requestedAt + 86_400_000_000_000
  }

  /** The plan fields name a plan approval created for exactly this plan. */
  ghost predicate PlanBound(h: Policy, requests: A.Requests, c: Row) {
    && c.planApproval in requests && c.plan.Some? && c.planDigest == h.plan(c.plan.value)
    && requests[c.planApproval].info.action == A.RepairPlan
    && requests[c.planApproval].info.actionDigest == c.planDigest && AskedFor(requests[c.planApproval].info, c)
  }

  ghost predicate PatchBound(h: Policy, requests: A.Requests, c: Row) {
    && c.patchApproval in requests && c.patch.Some? && c.patchDigest == h.patch(c.patch.value)
    && requests[c.patchApproval].info.action == A.PublishPatch
    && requests[c.patchApproval].info.actionDigest == c.patchDigest && AskedFor(requests[c.patchApproval].info, c)
    && c.branch == Some(c.id)
  }

  predicate HasPlan(c: Row) { c.planApproval != "" }

  predicate HasPatch(c: Row) { c.patchApproval != "" }

  ghost predicate Bound(h: Policy, requests: A.Requests, c: Row) {
    && (HasPlan(c) <==> c.planDigest != "") && (HasPatch(c) <==> c.patchDigest != "")
    && (HasPlan(c) ==> PlanBound(h, requests, c))
    && (HasPatch(c) ==> PatchBound(h, requests, c) && HasPlan(c) && Consumed(requests, c.planApproval))
  }

  /** What the state of a copy promises about its approvals. */
  predicate Staged(requests: A.Requests, c: Row) {
    match c.state
    case Planning => !HasPlan(c) && !HasPatch(c)
    case AwaitingPlanApproval => HasPlan(c) && !HasPatch(c)
    case PlanApproved => HasPlan(c) && Consumed(requests, c.planApproval) && !HasPatch(c)
    case Patching => HasPlan(c) && Consumed(requests, c.planApproval) && !HasPatch(c)
    case AwaitingPatchApproval => HasPatch(c)
    case PatchApproved => HasPatch(c) && Consumed(requests, c.patchApproval)
    case Published => HasPatch(c) && Consumed(requests, c.patchApproval)
    case Failed => (HasPlan(c) ==> Consumed(requests, c.planApproval)) && (HasPatch(c) ==> Consumed(requests, c.patchApproval))
    case Cancelled => false
  }

  ghost predicate Good(h: Policy, requests: A.Requests, c: Row) {
    Bound(h, requests, c) && Staged(requests, c)
  }

  /** Approvals only move forward, so a good copy stays good however stale it gets. */
  lemma GoodIsStable(h: Policy, requests: A.Requests, requests': A.Requests, c: Row)
    requires Good(h, requests, c) && P.RequestsStep(requests, requests')
    ensures Good(h, requests', c)
  {
    if HasPlan(c) { assert P.RowStep(requests[c.planApproval], requests'[c.planApproval]); }
    if HasPatch(c) { assert P.RowStep(requests[c.patchApproval], requests'[c.patchApproval]); }
  }

  // ----- actors -----

  /** Besides a good copy, where an actor stands fixes the state of its copy. */
  ghost predicate GoodActor(h: Policy, s: Sys, a: Actor) {
    && a.copy.id in s.rows && a.copy.info == s.rows[a.copy.id].info
    && Good(h, s.approvals.requests, a.copy)
    && match a
       case Saving(copy, next) => (next == ThenDraft ==> copy.state == Planning) && (next == ThenCode ==> copy.state == Patching)
       case Drafting(copy) => copy.state == Planning
       case Coding(copy) => copy.state == Patching
       case Publishing(copy) => copy.state == PatchApproved
       case Consuming(copy, phase, _, _, _) => copy.state == Awaiting(phase)
  }

  /** The gate: both approvals named in the worker's copy are consumed, each was requested for exactly
      this plan and this patch, the patch passed every check, and it is based on the repair's commit. */
  ghost predicate Gated(h: Policy, s: Sys, d: Draft) {
    var requests := s.approvals.requests;
    && Consumed(requests, d.copy.planApproval) && Consumed(requests, d.copy.patchApproval)
    && requests[d.copy.planApproval].info.action == A.RepairPlan
    && requests[d.copy.patchApproval].info.action == A.PublishPatch
    && d.copy.plan.Some? && requests[d.copy.planApproval].info.actionDigest == h.plan(d.copy.plan.value)
    && requests[d.copy.patchApproval].info.actionDigest == h.patch(d.patch)
    && h.patchError(d.patch, d.input.baseSha).None? && d.input.files == d.patch.files
    && d.copy.id in s.rows && CallFits(d, s.rows[d.copy.id].info)
    && AskedFor(requests[d.copy.planApproval].info, d.copy) && AskedFor(requests[d.copy.patchApproval].info, d.copy)
  }

  /** The provider was called for the stored repair: its repository and installation, its base, a branch of its
      own, its title, and the patch's summary and files. */
  predicate CallFits(d: Draft, info: Info) {
    && d.copy.info == info
    && d.input.repository == info.repository && d.input.installationId == info.installationId
    && d.input.baseBranch == info.baseBranch && d.input.baseSha == info.baseSha && d.input.issueTitle == info.issueTitle
    && d.input.branch == Some(d.copy.id) && d.input.body == d.patch.summary && d.input.files == d.patch.files
  }

  ghost predicate Inv(h: Policy, s: Sys) {
    && P.Inv(s.approvals)
    && (forall id :: id in s.rows ==> s.rows[id].id == id && Good(h, s.approvals.requests, s.rows[id]))
    && (forall a :: a in s.actors ==> GoodActor(h, s, s.actors[a]))
    && (forall i :: 0 <= i < |s.drafts| ==> Gated(h, s, s.drafts[i]))
  }

  // ----- each transition of a copy -----

  lemma FailedCopy(h: Policy, requests: A.Requests, c: Row, code: Code)
    requires Good(h, requests, c) && c.state != AwaitingPlanApproval && c.state != AwaitingPatchApproval
    ensures Good(h, requests, c.(state := Failed, failureCode := code))
  {
  }

  /** Resuming a failed repair puts it in the state that its fields vouch for. */
  lemma ResumedCopy(h: Policy, requests: A.Requests, c: Row)
    requires Good(h, requests, c) && c.state == Failed
    ensures HasPatch(c) ==> Good(h, requests, c.(state := PatchApproved))
    ensures HasPlan(c) && !HasPatch(c) ==> Good(h, requests, c.(state := Patching))
    ensures !HasPlan(c) && !HasPatch(c) ==> Good(h, requests, c.(state := Planning))
  {
  }

  lemma DispatchedCopy(h: Policy, s: Sys, c: Row, agent: bool)
    requires c.id in s.rows && c.info == s.rows[c.id].info && Good(h, s.approvals.requests, c) && Dispatch(c, agent).Some?
    ensures GoodActor(h, s, Dispatch(c, agent).value)
  {
    if c.state == Failed { ResumedCopy(h, s.approvals.requests, c); }
  }

  /** Hexadecimal digits are not white space, so the store's trimming leaves a digest alone. */
  lemma HexIsTrimmed(s: string)
    requires IsHex(s, 64)
    ensures Trim(s) == s
  {
    assert IsHexDigit(s[0]) && IsHexDigit(s[63]);
  }

  predicate Requested(requests: A.Requests, id: Id, input: A.CreateInput) {
    && id != "" && id in requests && requests[id].info.action == input.action && requests[id].info.actionDigest == input.actionDigest
    && requests[id].info.requesterId == input.requesterId && requests[id].info.risk == input.risk
    && requests[id].info.eligibleRoles == input.eligibleRoles
    && requests[id].info.requestedAt == input.requestedAt && requests[id].info.expiresAt == input.expiresAt
  }

  /** What an accepted approval request looks like. */
  lemma CreatedRequest(requests: A.Requests, input: A.CreateInput, id: Id, now: Time)
    requires IsHex(input.actionDigest, 64)
    ensures var created := A.CreateChecked(requests, input, id, now);
            && P.RequestsStep(requests, created.requests)
            && (created.result.Err? ==> created.requests == requests)
            && (created.result.Ok? ==> Requested(created.requests, id, input))
  {
    HexIsTrimmed(input.actionDigest);
    P.CreateSteps(requests, input, id, now);
  }

  lemma PlanStoredCopy(h: Policy, requests: A.Requests, c: Row, plan: Plan, approval: Id)
    requires Good(h, requests, c) && c.state == Planning && h.plan(plan) != ""
    requires approval != "" && approval in requests
    requires requests[approval].info.action == A.RepairPlan && requests[approval].info.actionDigest == h.plan(plan)
    requires AskedFor(requests[approval].info, c)
    ensures Good(h, requests, PlanStored(c, plan, h.plan(plan), approval))
  {
  }

  lemma PatchStoredCopy(h: Policy, requests: A.Requests, c: Row, patch: Patch, approval: Id)
    requires Good(h, requests, c) && c.state == Patching && h.patch(patch) != ""
    requires approval != "" && approval in requests
    requires requests[approval].info.action == A.PublishPatch && requests[approval].info.actionDigest == h.patch(patch)
    requires AskedFor(requests[approval].info, c)
    ensures Good(h, requests, PatchStored(c, patch, h.patch(patch), approval))
  {
  }

  ghost predicate Answers(h: Policy, s: Sys, c: Row, answered: (A.Requests, Actor)) {
    && P.RequestsStep(s.approvals.requests, answered.0)
    && answered.1.Saving? && answered.1.next == ThenStop
    && answered.1.copy.id == c.id && answered.1.copy.info == c.info && Good(h, answered.0, answered.1.copy)
  }

  lemma AnswerCopy(h: Policy, s: Sys, c: Row, refusal: Option<Code>, input: A.CreateInput, approval: Id, now: Time, stored: Row, failure: Code)
    requires Good(h, s.approvals.requests, c) && (c.state == Planning || c.state == Patching) && IsHex(input.actionDigest, 64)
    ensures var answered := Answer(s.approvals.requests, c, refusal, input, approval, now, stored, failure);
            Answers(h, s, c, answered)
            || (answered.1 == Saving(stored, ThenStop) && P.RequestsStep(s.approvals.requests, answered.0)
                && Requested(answered.0, approval, input))
  {
    CreatedRequest(s.approvals.requests, input, approval, now);
    FailedCopy(h, s.approvals.requests, c, if refusal.Some? then refusal.value else failure);
  }

  lemma PlanAnsweredCopy(h: Policy, s: Sys, c: Row, plan: Option<Plan>, approval: Id, now: Time, code: string)
    requires GoodDigests(h) && Good(h, s.approvals.requests, c) && c.state == Planning
    ensures Answers(h, s, c, PlanAnswered(h, s.approvals.requests, c, plan, approval, now, code))
  {
    var requests := s.approvals.requests;
    match plan
    case None => FailedCopy(h, requests, c, AgentFailed(code));
    case Some(p) =>
      var answered := PlanAnswered(h, requests, c, plan, approval, now, code);
      var stored := PlanStored(c, p, h.plan(p), approval);
      assert IsHex(h.plan(p), 64);
      AnswerCopy(h, s, c, PlanRefusal(h, c, p), ApprovalInput(c, PlanPhase, h.plan(p), now), approval, now, stored, PlanApprovalFailed);
      if !Answers(h, s, c, answered) {
        GoodIsStable(h, requests, answered.0, c);
        PlanStoredCopy(h, answered.0, c, p, approval);
      }
  }

  lemma PatchAnsweredCopy(h: Policy, s: Sys, c: Row, patch: Option<Patch>, approval: Id, now: Time, code: string)
    requires GoodDigests(h) && Good(h, s.approvals.requests, c) && c.state == Patching
    ensures Answers(h, s, c, PatchAnswered(h, s.approvals.requests, c, patch, approval, now, code))
  {
    var requests := s.approvals.requests;
    match patch
    case None => FailedCopy(h, requests, c, AgentFailed(code));
    case Some(p) =>
      var answered := PatchAnswered(h, requests, c, patch, approval, now, code);
      var stored := PatchStored(c, p, h.patch(p), approval);
      assert IsHex(h.patch(p), 64);
      AnswerCopy(h, s, c, PatchRefusal(h, c, p), ApprovalInput(c, PatchPhase, h.patch(p), now), approval, now, stored, PatchApprovalFailed);
      if !Answers(h, s, c, answered) {
        GoodIsStable(h, requests, answered.0, c);
        PatchStoredCopy(h, answered.0, c, p, approval);
      }
  }

  lemma PublishedCopy(h: Policy, s: Sys, c: Row, answer: Publication)
    requires GoodActor(h, s, Publishing(c))
    ensures var answered := PublishAnswered(h, c, answer);
            GoodActor(h, s, answered.1) && (answered.0.Some? ==> Gated(h, s, answered.0.value))
  {
    var answered := PublishAnswered(h, c, answer);
    if answered.0.None? {
      FailedCopy(h, s.approvals.requests, c, answered.1.copy.failureCode);
    } else {
      assert HasPatch(c) && HasPlan(c) && Decoded(c) == c.patch.value;
    }
  }

  lemma ConsumedCopy(h: Policy, s: Sys, c: Actor, now: Time)
    requires c.Consuming? && GoodActor(h, s, c)
    ensures var consumed := A.ConsumeChecked(s.approvals.requests, ConsumeInputOf(c, now));
            && P.RequestsStep(s.approvals.requests, consumed.requests)
            && (ConsumeAnswered(c, consumed.result).Some? ==>
                GoodActor(h, s.(approvals := s.approvals.(requests := consumed.requests)), ConsumeAnswered(c, consumed.result).value))
  {
    var input := ConsumeInputOf(c, now);
    var requests := s.approvals.requests;
    var consumed := A.ConsumeChecked(requests, input);
    assert P.RequestsStep(requests, consumed.requests) by { P.ConsumeSteps(requests, input); }
    assert Good(h, consumed.requests, c.copy) by { GoodIsStable(h, requests, consumed.requests, c.copy); }
    if consumed.result.Ok? {
      ConsumptionConsumes(requests, input);
      ApprovedCopy(h, consumed.requests, c.copy, c.phase);
    }
  }

  lemma ConsumptionConsumes(requests: A.Requests, input: A.ConsumeInput)
    requires A.ConsumeChecked(requests, input).result.Ok?
    ensures Consumed(A.ConsumeChecked(requests, input).requests, input.approvalId)
  {
  }

  lemma ApprovedCopy(h: Policy, requests: A.Requests, c: Row, phase: Phase)
    requires Good(h, requests, c) && c.state == Awaiting(phase) && Consumed(requests, ApprovalOf(c, phase))
    ensures Good(h, requests, c.(state := NextApproved(phase), failureCode := NoFailure))
  {
  }

  // ----- the approval calls a repair step makes -----

  /** The approval step that a repair step performs, if any. */
  function Projected(h: Policy, s: Sys, step: Step): A.Step {
    match step
    case ApprovalStep(inner) => inner
    case DraftStep(actor, plan, newId, now, _) =>
      if actor in s.actors && s.actors[actor].Drafting? && plan.Some? && PlanRefusal(h, s.actors[actor].copy, plan.value).None?
      then A.RequestStep(ApprovalInput(s.actors[actor].copy, PlanPhase, h.plan(plan.value), now), newId, now)
      else A.IdleStep
    case CodeStep(actor, patch, newId, now, _) =>
      if actor in s.actors && s.actors[actor].Coding? && patch.Some? && PatchRefusal(h, s.actors[actor].copy, patch.value).None?
      then A.RequestStep(ApprovalInput(s.actors[actor].copy, PatchPhase, h.patch(patch.value), now), newId, now)
      else A.IdleStep
    case ConsumeStep(actor, now) =>
      if actor in s.actors && s.actors[actor].Consuming? then A.ConsumeStep(ConsumeInputOf(s.actors[actor], now)) else A.IdleStep
    case _ => A.IdleStep
  }

  lemma ProjectedAnswer(approvals: A.Sys, copy: Row, refusal: Option<Code>, input: A.CreateInput, approval: Id, now: Time, stored: Row, failure: Code)
    ensures approvals.(requests := Answer(approvals.requests, copy, refusal, input, approval, now, stored, failure).0)
         == A.Apply(approvals, if refusal.None? then A.RequestStep(input, approval, now) else A.IdleStep)
  {
  }

  lemma ProjectedPlan(h: Policy, s: Sys, actor: Id, plan: Option<Plan>, newId: Id, now: Time, code: string)
    requires actor in s.actors && s.actors[actor].Drafting?
    ensures s.approvals.(requests := PlanAnswered(h, s.approvals.requests, s.actors[actor].copy, plan, newId, now, code).0)
         == A.Apply(s.approvals, Projected(h, s, DraftStep(actor, plan, newId, now, code)))
  {
    if plan.Some? {
      var c, p := s.actors[actor].copy, plan.value;
      ProjectedAnswer(s.approvals, c, PlanRefusal(h, c, p), ApprovalInput(c, PlanPhase, h.plan(p), now), newId, now,
                      PlanStored(c, p, h.plan(p), newId), PlanApprovalFailed);
    }
  }

  lemma ProjectedPatch(h: Policy, s: Sys, actor: Id, patch: Option<Patch>, newId: Id, now: Time, code: string)
    requires actor in s.actors && s.actors[actor].Coding?
    ensures s.approvals.(requests := PatchAnswered(h, s.approvals.requests, s.actors[actor].copy, patch, newId, now, code).0)
         == A.Apply(s.approvals, Projected(h, s, CodeStep(actor, patch, newId, now, code)))
  {
    if patch.Some? {
      var c, p := s.actors[actor].copy, patch.value;
      ProjectedAnswer(s.approvals, c, PatchRefusal(h, c, p), ApprovalInput(c, PatchPhase, h.patch(p), now), newId, now,
                      PatchStored(c, p, h.patch(p), newId), PatchApprovalFailed);
    }
  }

  lemma ProjectedStep(h: Policy, s: Sys, step: Step)
    ensures Apply(h, s, step).approvals == A.Apply(s.approvals, Projected(h, s, step))
  {
    match step
    case DraftStep(actor, plan, newId, now, code) =>
      if actor in s.actors && s.actors[actor].Drafting? { ProjectedPlan(h, s, actor, plan, newId, now, code); }
    case CodeStep(actor, patch, newId, now, code) =>
      if actor in s.actors && s.actors[actor].Coding? { ProjectedPatch(h, s, actor, patch, newId, now, code); }
    case _ =>
  }

  // ----- every step keeps the invariant -----

  lemma ApprovalsMove(h: Policy, s: Sys, approvals': A.Sys)
    requires Inv(h, s) && P.Inv(approvals') && P.RequestsStep(s.approvals.requests, approvals'.requests)
    ensures Inv(h, s.(approvals := approvals'))
  {
    var s' := s.(approvals := approvals');
    var requests, requests' := s.approvals.requests, approvals'.requests;
    forall id | id in s.rows
      ensures Good(h, requests', s.rows[id])
    {
      GoodIsStable(h, requests, requests', s.rows[id]);
    }
    forall a | a in s.actors
      ensures GoodActor(h, s', s.actors[a])
    {
      GoodIsStable(h, requests, requests', s.actors[a].copy);
    }
    forall i | 0 <= i < |s.drafts|
      ensures Gated(h, s', s.drafts[i])
    {
      GatedIsStable(h, s, approvals', s.drafts[i]);
    }
  }

  lemma GatedIsStable(h: Policy, s: Sys, approvals': A.Sys, d: Draft)
    requires Gated(h, s, d) && P.RequestsStep(s.approvals.requests, approvals'.requests)
    ensures Gated(h, s.(approvals := approvals'), d)
  {
    assert P.RowStep(s.approvals.requests[d.copy.planApproval], approvals'.requests[d.copy.planApproval]);
    assert P.RowStep(s.approvals.requests[d.copy.patchApproval], approvals'.requests[d.copy.patchApproval]);
  }

  lemma ApprovalsStep(h: Policy, s: Sys, step: A.Step)
    requires Inv(h, s)
    ensures Inv(h, s.(approvals := A.Apply(s.approvals, step)))
  {
    P.StepKeepsInv(s.approvals, step);
    ApprovalsMove(h, s, A.Apply(s.approvals, step));
  }

  lemma PutKeepsInv(h: Policy, s: Sys, actor: Id, next: Option<Actor>)
    requires Inv(h, s) && (next.Some? ==> GoodActor(h, s, next.value))
    ensures Inv(h, Put(s, actor, next))
  {
    var s' := Put(s, actor, next);
    forall a | a in s'.actors
      ensures GoodActor(h, s', s'.actors[a])
    {
      assert a != actor || next.None? ==> GoodActor(h, s, s.actors[a]);
    }
    forall i | 0 <= i < |s.drafts|
      ensures Gated(h, s', s.drafts[i])
    {
      assert Gated(h, s, s.drafts[i]);
    }
  }

  /** Rows keep their fixed columns, so copies and drafts keep pointing at the same base commit. */
  lemma RowsMove(h: Policy, s: Sys, rows': Rows)
    requires Inv(h, s)
    requires forall id :: id in s.rows ==> id in rows' && rows'[id].info == s.rows[id].info
    requires forall id :: id in rows' ==> rows'[id].id == id && Good(h, s.approvals.requests, rows'[id])
    ensures Inv(h, s.(rows := rows'))
  {
    var s' := s.(rows := rows');
    forall a | a in s.actors
      ensures GoodActor(h, s', s.actors[a])
    {
      assert GoodActor(h, s, s.actors[a]);
    }
    forall i | 0 <= i < |s.drafts|
      ensures Gated(h, s', s.drafts[i])
    {
      assert Gated(h, s, s.drafts[i]);
    }
  }

  lemma SaveKeepsInv(h: Policy, s: Sys, copy: Row, now: Time)
    requires Inv(h, s) && copy.id in s.rows && copy.info == s.rows[copy.id].info && Good(h, s.approvals.requests, copy)
    ensures Inv(h, s.(rows := Update(s.rows, copy, now)))
  {
    assert Good(h, s.approvals.requests, copy.(updatedAt := now));
    RowsMove(h, s, Update(s.rows, copy, now));
  }

  lemma CreateKeepsInv(h: Policy, s: Sys, id: Id, info: Info, now: Time)
    requires Inv(h, s)
    ensures Inv(h, s.(rows := Create(s.rows, id, info, now)))
  {
    assert Good(h, s.approvals.requests, NewRow(id, info, now));
    RowsMove(h, s, Create(s.rows, id, info, now));
  }

  lemma MoveAndPut(h: Policy, s: Sys, step: A.Step, approvals': A.Sys, actor: Id, next: Option<Actor>)
    requires Inv(h, s) && approvals' == A.Apply(s.approvals, step)
    requires next.Some? ==> GoodActor(h, s.(approvals := approvals'), next.value)
    ensures Inv(h, Put(s.(approvals := approvals'), actor, next))
  {
    ApprovalsStep(h, s, step);
    PutKeepsInv(h, s.(approvals := approvals'), actor, next);
  }

  lemma AfterAnswerKeepsInv(h: Policy, s: Sys, actor: Id, step: A.Step, answered: (A.Requests, Actor))
    requires Inv(h, s) && actor in s.actors && Answers(h, s, s.actors[actor].copy, answered)
    requires s.approvals.(requests := answered.0) == A.Apply(s.approvals, step)
    ensures Inv(h, AfterAnswer(s, actor, answered))
  {
    assert GoodActor(h, s, s.actors[actor]);
    MoveAndPut(h, s, step, s.approvals.(requests := answered.0), actor, Some(answered.1));
  }

  lemma DraftStepKeepsInv(h: Policy, s: Sys, actor: Id, plan: Option<Plan>, newId: Id, now: Time, code: string)
    requires GoodDigests(h) && Inv(h, s) && actor in s.actors && s.actors[actor].Drafting?
    ensures Inv(h, Apply(h, s, DraftStep(actor, plan, newId, now, code)))
  {
    assert GoodActor(h, s, s.actors[actor]);
    var c := s.actors[actor].copy;
    PlanAnsweredCopy(h, s, c, plan, newId, now, code);
    ProjectedPlan(h, s, actor, plan, newId, now, code);
    AfterAnswerKeepsInv(h, s, actor, Projected(h, s, DraftStep(actor, plan, newId, now, code)),
                        PlanAnswered(h, s.approvals.requests, c, plan, newId, now, code));
  }

  lemma CodeStepKeepsInv(h: Policy, s: Sys, actor: Id, patch: Option<Patch>, newId: Id, now: Time, code: string)
    requires GoodDigests(h) && Inv(h, s) && actor in s.actors && s.actors[actor].Coding?
    ensures Inv(h, Apply(h, s, CodeStep(actor, patch, newId, now, code)))
  {
    assert GoodActor(h, s, s.actors[actor]);
    var c := s.actors[actor].copy;
    PatchAnsweredCopy(h, s, c, patch, newId, now, code);
    ProjectedPatch(h, s, actor, patch, newId, now, code);
    AfterAnswerKeepsInv(h, s, actor, Projected(h, s, CodeStep(actor, patch, newId, now, code)),
                        PatchAnswered(h, s.approvals.requests, c, patch, newId, now, code));
  }

  lemma DraftKeepsInv(h: Policy, s: Sys, d: Draft)
    requires Inv(h, s) && Gated(h, s, d)
    ensures Inv(h, s.(drafts := s.drafts + [d]))
  {
    var s' := s.(drafts := s.drafts + [d]);
    forall a | a in s.actors
      ensures GoodActor(h, s', s.actors[a])
    {
      assert GoodActor(h, s, s.actors[a]);
    }
    forall i | 0 <= i < |s'.drafts|
      ensures Gated(h, s', s'.drafts[i])
    {
      assert Gated(h, s, s'.drafts[i]);
    }
  }

  lemma AfterPublishKeepsInv(h: Policy, s: Sys, actor: Id, answered: (Option<Draft>, Actor))
    requires Inv(h, s) && GoodActor(h, s, answered.1) && (answered.0.Some? ==> Gated(h, s, answered.0.value))
    ensures Inv(h, AfterPublish(s, actor, answered))
  {
    if answered.0.Some? { DraftKeepsInv(h, s, answered.0.value); }
    var s' := s.(drafts := if answered.0.Some? then s.drafts + [answered.0.value] else s.drafts);
    assert GoodActor(h, s', answered.1);
    PutKeepsInv(h, s', actor, Some(answered.1));
  }

  lemma PublishStepKeepsInv(h: Policy, s: Sys, actor: Id, answer: Publication)
    requires Inv(h, s) && actor in s.actors && s.actors[actor].Publishing?
    ensures Inv(h, Apply(h, s, PublishStep(actor, answer)))
  {
    var c := s.actors[actor].copy;
    assert GoodActor(h, s, Publishing(c)) by { assert GoodActor(h, s, s.actors[actor]); }
    var answered := PublishAnswered(h, c, answer);
    assert GoodActor(h, s, answered.1) && (answered.0.Some? ==> Gated(h, s, answered.0.value)) by { PublishedCopy(h, s, c, answer); }
    assert Inv(h, AfterPublish(s, actor, answered)) by { AfterPublishKeepsInv(h, s, actor, answered); }
    PublishApplied(h, s, actor, c, answer);
  }

  lemma PublishApplied(h: Policy, s: Sys, actor: Id, c: Row, answer: Publication)
    requires actor in s.actors && s.actors[actor] == Publishing(c)
    ensures Apply(h, s, PublishStep(actor, answer)) == AfterPublish(s, actor, PublishAnswered(h, c, answer))
  {
  }

  lemma ConsumeApplied(h: Policy, s: Sys, actor: Id, c: Actor, now: Time)
    requires actor in s.actors && s.actors[actor] == c && c.Consuming?
    ensures var consumed := A.ConsumeChecked(s.approvals.requests, ConsumeInputOf(c, now));
            var approvals := s.approvals.(requests := consumed.requests);
            && approvals == A.Apply(s.approvals, A.ConsumeStep(ConsumeInputOf(c, now)))
            && Apply(h, s, ConsumeStep(actor, now)) == Put(s.(approvals := approvals), actor, ConsumeAnswered(c, consumed.result))
  {
  }

  lemma ConsumeStepKeepsInv(h: Policy, s: Sys, actor: Id, now: Time)
    requires Inv(h, s) && actor in s.actors && s.actors[actor].Consuming?
    ensures Inv(h, Apply(h, s, ConsumeStep(actor, now)))
  {
    var c := s.actors[actor];
    var input := ConsumeInputOf(c, now);
    var consumed := A.ConsumeChecked(s.approvals.requests, input);
    var approvals, next := s.approvals.(requests := consumed.requests), ConsumeAnswered(c, consumed.result);
    ConsumeApplied(h, s, actor, c, now);
    assert next.Some? ==> GoodActor(h, s.(approvals := approvals), next.value) by {
      assert GoodActor(h, s, c);
      ConsumedCopy(h, s, c, now);
    }
    MoveAndPut(h, s, A.ConsumeStep(input), approvals, actor, next);
  }

  lemma SaveStepKeepsInv(h: Policy, s: Sys, actor: Id, now: Time)
    requires Inv(h, s) && actor in s.actors && s.actors[actor].Saving?
    ensures Inv(h, Apply(h, s, SaveStep(actor, now)))
  {
    var a := s.actors[actor];
    assert GoodActor(h, s, a);
    var s' := s.(rows := Update(s.rows, a.copy, now));
    SaveKeepsInv(h, s, a.copy, now);
    assert GoodActor(h, s', s'.actors[actor]);
    PutKeepsInv(h, s', actor, AfterSave(a));
  }

  lemma StartStepKeepsInv(h: Policy, s: Sys, step: Step)
    requires Inv(h, s) && (step.ProcessStep? || step.ConsumeStartStep?) && step.repair in s.rows
    ensures Inv(h, Apply(h, s, step))
  {
    var row := s.rows[step.repair];
    assert Good(h, s.approvals.requests, row);
    if step.ProcessStep? {
      if Dispatch(row, step.agent).Some? { DispatchedCopy(h, s, row, step.agent); }
      PutKeepsInv(h, s, step.actor, Dispatch(row, step.agent));
    } else {
      PutKeepsInv(h, s, step.actor, ConsumeStart(row, step.phase, step.digest, step.key, step.actorId));
    }
  }

  lemma StepKeepsInv(h: Policy, s: Sys, step: Step)
    requires GoodDigests(h) && Inv(h, s)
    ensures Inv(h, Apply(h, s, step))
  {
    match step
    case CreateStep(newId, info, now) => CreateKeepsInv(h, s, newId, info, now);
    case ProcessStep(_, repair, _) => if repair in s.rows { StartStepKeepsInv(h, s, step); }
    case ConsumeStartStep(_, repair, _, _, _, _) => if repair in s.rows { StartStepKeepsInv(h, s, step); }
    case SaveStep(actor, now) => if actor in s.actors && s.actors[actor].Saving? { SaveStepKeepsInv(h, s, actor, now); }
    case DraftStep(actor, plan, newId, now, code) =>
      if actor in s.actors && s.actors[actor].Drafting? { DraftStepKeepsInv(h, s, actor, plan, newId, now, code); }
    case CodeStep(actor, patch, newId, now, code) =>
      if actor in s.actors && s.actors[actor].Coding? { CodeStepKeepsInv(h, s, actor, patch, newId, now, code); }
    case PublishStep(actor, answer) => if actor in s.actors && s.actors[actor].Publishing? { PublishStepKeepsInv(h, s, actor, answer); }
    case ConsumeStep(actor, now) => if actor in s.actors && s.actors[actor].Consuming? { ConsumeStepKeepsInv(h, s, actor, now); }
    case CrashStep(actor) => PutKeepsInv(h, s, actor, None);
    case ApprovalStep(inner) => ApprovalsStep(h, s, inner);
  }

  lemma {:induction false} InvAlong(h: Policy, states: seq<Sys>, steps: seq<Step>, n: nat)
    requires GoodDigests(h) && Behaviour(h, states, steps) && states[0] == START && n <= |steps|
    ensures Inv(h, states[n])
  {
    if n > 0 {
      InvAlong(h, states, steps, n - 1);
      StepKeepsInv(h, states[n - 1], steps[n - 1]);
    }
  }
}
