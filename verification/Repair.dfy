/** The two-stage repair workflow: plan, approve, patch, approve, publish.

    Workers and consumers read a repair row, keep a private copy, and later write
    that copy back blindly, so the unit of interleaving is one store or provider
    call. A worker whose lease lapsed keeps its copy and goes on. */
module Repair {
  import opened Base
  import opened PatchPolicy
  import A = Approvals

  datatype State =
    | Planning | AwaitingPlanApproval | PlanApproved | Patching | AwaitingPatchApproval | PatchApproved
    | Published | Failed | Cancelled

  datatype Phase = PlanPhase | PatchPhase

  /** The columns that store.Update leaves alone. */
  datatype Info = Info(
    taskId: Id, sourceKey: string, repository: string, cloneUrl: string, installationId: string,
    issueTitle: string, issueBody: string, baseBranch: string, baseSha: string, createdBy: Id)

  /** The failure codes a worker stores (m8_...). */
  datatype Code =
    | NoFailure | AcUnavailable | PlanInvalid | RequesterMissing | PlanApprovalFailed | PatchRejected(error: Error)
    | PatchApprovalFailed | ProviderUnavailable | PublicationFailed | AgentFailed(code: string)

  datatype PullRequest = PullRequest(number: int, url: string)

  /** What publishing meets: no provider is configured, the provider fails, or it opens a draft. */
  datatype Publication = NoProvider | Declined | Opened(pr: PullRequest)

  /** A repair row, and equally a private copy of one. An absent plan or patch is the stored {}; the
      branch is named after the repair it belongs to. */
  datatype Row = Row(
    id: Id, info: Info, state: State,
    plan: Option<Plan>, planDigest: string, planApproval: Id,
    patch: Option<Patch>, patchDigest: string, patchApproval: Id,
    branch: Option<Id>, draft: Option<PullRequest>, failureCode: Code, updatedAt: Time)

  datatype PublishInput = PublishInput(
    repository: string, installationId: string, baseBranch: string, baseSha: string, branch: Option<Id>,
    issueTitle: string, body: string, files: seq<File>)

  /** A draft the provider accepted: the copy the worker held, its decoded patch, and the call's arguments. */
  datatype Draft = Draft(copy: Row, patch: Patch, input: PublishInput)

  /** The digests of plans and patches, and the checks on them. */
  datatype Policy = Policy(
    plan: Plan -> string, patch: Patch -> string, planOk: Plan -> bool, patchError: (Patch, string) -> Option<Error>)

  /** hex(sha256(...)): 64 hexadecimal digits. */
  ghost predicate GoodDigests(h: Policy) {
    (forall p :: IsHex(h.plan(p), 64)) && (forall p :: IsHex(h.patch(p), 64))
  }

  /** The policy in force: the checks of module PatchPolicy. */
  ghost predicate Standard(h: Policy) {
    && GoodDigests(h)
    && (forall p :: h.planOk(p) == ValidPlan(p))
    && (forall p, base :: h.patchError(p, base) == ValidatePatch(p, base))
  }

  // ----- state machine (types.go) -----

  predicate CanTransition(from: State, to: State) {
    (from == to && (from == Planning || from == Patching || from == Failed))
    || match from
       case Planning => to == AwaitingPlanApproval || to == Failed || to == Cancelled
       case AwaitingPlanApproval => to == PlanApproved || to == Failed || to == Cancelled
       case PlanApproved => to == Patching || to == Failed || to == Cancelled
       case Patching => to == AwaitingPatchApproval || to == Failed || to == Cancelled
       case AwaitingPatchApproval => to == PatchApproved || to == Failed || to == Cancelled
       case PatchApproved => to == Published || to == Failed || to == Cancelled
       case Failed => to == Planning || to == PlanApproved || to == PatchApproved || to == Cancelled
       case _ => false
  }

  // ----- store.go -----

  type Rows = map<Id, Row>

  function NewRow(id: Id, info: Info, now: Time): Row {
    Row(id, info, Planning, None, "", "", None, "", "", None, None, NoFailure, now)
  }

  datatype CreateError = InvalidTrigger | StorageError

  /** The checks of an issue and its keys that concern stored columns. */
  predicate ValidInfo(info: Info) {
    && !Blank(info.sourceKey) && !Blank(info.taskId) && !Blank(info.repository) && !Blank(info.cloneUrl)
    && !Blank(info.installationId) && !Blank(info.issueTitle) && !Blank(info.baseBranch)
    && !ContainsAny(info.baseBranch, "\r\n") && IsHex(info.baseSha, 40)
  }

  predicate OwnsKey(rows: Rows, x: Id, key: string) {
    x in rows && rows[x].info.sourceKey == key
  }

  predicate KeyClash(rows: Rows, id: Id, info: Info) {
    id == "" || id in rows || exists x :: x in rows && rows[x].info.taskId == info.taskId
  }

  /** INSERT ... ON CONFLICT (source_key): the existing row wins; other key clashes fail. */
  function Create(rows: Rows, id: Id, info: Info, now: Time): Rows {
    if !ValidInfo(info) || (exists x :: x in rows && OwnsKey(rows, x, info.sourceKey)) || KeyClash(rows, id, info) then rows
    else rows[id := NewRow(id, info, now)]
  }

  /** UPDATE ... WHERE id: every mutable column from the copy, whatever the row holds now. */
  function Update(rows: Rows, copy: Row, now: Time): Rows {
    if copy.id in rows then rows[copy.id := copy.(info := rows[copy.id].info, updatedAt := now)] else rows
  }

  // ----- processor.go and service.go -----

  /** What a worker or consumer does next, with its private copy. */
  datatype Actor =
    | Saving(copy: Row, next: Next)
    | Drafting(copy: Row)
    | Coding(copy: Row)
    | Publishing(copy: Row)
    | Consuming(copy: Row, phase: Phase, digest: string, key: string, actorId: Id)

  datatype Next = ThenDraft | ThenCode | ThenStop

  function Fail(copy: Row, code: Code): Actor {
    Saving(copy.(state := Failed, failureCode := code), ThenStop)
  }

  /** Process: which phase the row that was read calls for. None: m8_invalid_state, nothing is written. */
  function Dispatch(copy: Row, agent: bool): Option<Actor> {
    if !agent && (copy.state == Planning || copy.state == PlanApproved || copy.state == Patching
                  || (copy.state == Failed && copy.patchDigest == "")) then
      Some(Fail(copy, AcUnavailable))
    else
      match copy.state
      case Planning => Some(Saving(copy, ThenDraft))
      case PlanApproved => Some(Saving(copy.(state := Patching), ThenCode))
      case PatchApproved => Some(Publishing(copy))
      case Failed =>
        if copy.patchApproval != "" && copy.patchDigest != "" then Some(Publishing(copy.(state := PatchApproved)))
        else if copy.planApproval != "" && copy.planDigest != "" then Some(Saving(copy.(state := Patching), ThenCode))
        else Some(Saving(copy.(state := Planning), ThenDraft))
      case _ => None
  }

  const DAY: Time := 24 * 3600 * 1000000000

  function ApprovalInput(copy: Row, phase: Phase, digest: string, now: Time): A.CreateInput {
    A.CreateInput(if phase == PatchPhase then A.PublishPatch else A.RepairPlan, A.High, digest, copy.info.createdBy,
                  [A.Admin, A.Maintainer], now + DAY, A.Metadata(None, copy.id), now)
  }

  function PlanStored(copy: Row, plan: Plan, digest: string, approval: Id): Row {
    copy.(plan := Some(plan), planDigest := digest, planApproval := approval, state := AwaitingPlanApproval)
  }

  function PatchStored(copy: Row, patch: Patch, digest: string, approval: Id): Row {
    copy.(patch := Some(patch), patchDigest := digest, patchApproval := approval,
          branch := Some(copy.id), state := AwaitingPatchApproval)
  }

  /** Once the agent's answer is judged: either the phase fails, or an approval is requested and the
      answer is saved with it. */
  function Answer(requests: A.Requests, copy: Row, refusal: Option<Code>, input: A.CreateInput, approval: Id, now: Time,
                  stored: Row, failure: Code): (A.Requests, Actor) {
    if refusal.Some? then (requests, Fail(copy, refusal.value))
    else
      var created := A.CreateChecked(requests, input, approval, now);
      if created.result.Err? then (created.requests, Fail(copy, failure))
      else (created.requests, Saving(stored, ThenStop))
  }

  function PlanRefusal(h: Policy, copy: Row, plan: Plan): Option<Code> {
    if !h.planOk(plan) then Some(PlanInvalid)
    else if Blank(copy.info.createdBy) then Some(RequesterMissing)
    else None
  }

  function PatchRefusal(h: Policy, copy: Row, patch: Patch): Option<Code> {
    match h.patchError(patch, copy.info.baseSha)
    case Some(e) => Some(PatchRejected(e))
    case None => None
  }

  /** The rest of generatePlan once the agent has answered (None: it did not, for the reason in code). */
  function PlanAnswered(h: Policy, requests: A.Requests, copy: Row, plan: Option<Plan>, approval: Id, now: Time,
                        code: string): (A.Requests, Actor) {
    match plan
    case None => (requests, Fail(copy, AgentFailed(code)))
    case Some(p) =>
      Answer(requests, copy, PlanRefusal(h, copy, p), ApprovalInput(copy, PlanPhase, h.plan(p), now), approval, now,
             PlanStored(copy, p, h.plan(p), approval), PlanApprovalFailed)
  }

  function PatchAnswered(h: Policy, requests: A.Requests, copy: Row, patch: Option<Patch>, approval: Id, now: Time,
                         code: string): (A.Requests, Actor) {
    match patch
    case None => (requests, Fail(copy, AgentFailed(code)))
    case Some(p) =>
      Answer(requests, copy, PatchRefusal(h, copy, p), ApprovalInput(copy, PatchPhase, h.patch(p), now), approval, now,
             PatchStored(copy, p, h.patch(p), approval), PatchApprovalFailed)
  }

  /** Decoding the stored {} yields the zero patch. */
  const ZERO_PATCH := Patch("", "", "", "", [], [])

  function Decoded(copy: Row): Patch {
    if copy.patch.Some? then copy.patch.value else ZERO_PATCH
  }

  function PublishCall(copy: Row): PublishInput {
    PublishInput(copy.info.repository, copy.info.installationId, copy.info.baseBranch, copy.info.baseSha, copy.branch,
                 copy.info.issueTitle, Decoded(copy).summary, Decoded(copy).files)
  }

  /** publish: revalidate, then the provider either refuses or returns a draft pull request. */
  function PublishAnswered(h: Policy, copy: Row, answer: Publication): (Option<Draft>, Actor) {
    if PatchRefusal(h, copy, Decoded(copy)).Some? then (None, Fail(copy, PatchRefusal(h, copy, Decoded(copy)).value))
    else if answer.NoProvider? then (None, Fail(copy, ProviderUnavailable))
    else if answer.Declined? then (None, Fail(copy, PublicationFailed))
    else (Some(Draft(copy, Decoded(copy), PublishCall(copy))),
          Saving(copy.(draft := Some(answer.pr), state := Published, failureCode := NoFailure), ThenStop))
  }

  function Awaiting(phase: Phase): State {
    if phase == PlanPhase then AwaitingPlanApproval else AwaitingPatchApproval
  }

  function NextApproved(phase: Phase): State {
    if phase == PlanPhase then PlanApproved else PatchApproved
  }

  function ApprovalOf(copy: Row, phase: Phase): Id {
    if phase == PlanPhase then copy.planApproval else copy.patchApproval
  }

  function ActionOf(phase: Phase): A.Action {
    if phase == PlanPhase then A.RepairPlan else A.PublishPatch
  }

  /** ConsumeApproval up to its call of the approval service: an actor that will make the call, or an early answer. */
  function ConsumeStart(copy: Row, phase: Phase, digest: string, key: string, actorId: Id): Option<Actor> {
    if copy.state != Awaiting(phase) || ApprovalOf(copy, phase) == "" || Blank(actorId) then None
    else Some(Consuming(copy, phase, digest, key, actorId))
  }

  function ConsumeInputOf(c: Actor, now: Time): A.ConsumeInput
    requires c.Consuming?
  {
    A.ConsumeInput(ApprovalOf(c.copy, c.phase), c.actorId, c.digest, c.key, now)
  }

  /** After the approval service answered: the approved copy is to be saved, or the call ends. */
  function ConsumeAnswered(c: Actor, result: Result<A.Request, A.Error>): Option<Actor>
    requires c.Consuming?
  {
    if result.Err? || result.value.info.action != ActionOf(c.phase) then None
    else Some(Saving(c.copy.(state := NextApproved(c.phase), failureCode := NoFailure), ThenStop))
  }

  // ----- interleavings -----

  datatype Sys = Sys(rows: Rows, approvals: A.Sys, actors: map<Id, Actor>, drafts: seq<Draft>)

  const START := Sys(map[], A.Sys(map[], map[]), map[], [])

  datatype Step =
    | CreateStep(newId: Id, info: Info, now: Time)
    | ProcessStep(actor: Id, repair: Id, agent: bool)
    | ConsumeStartStep(actor: Id, repair: Id, phase: Phase, digest: string, key: string, actorId: Id)
    | SaveStep(actor: Id, now: Time)
    | DraftStep(actor: Id, plan: Option<Plan>, newId: Id, now: Time, code: string)
    | CodeStep(actor: Id, patch: Option<Patch>, newId: Id, now: Time, code: string)
    | PublishStep(actor: Id, answer: Publication)
    | ConsumeStep(actor: Id, now: Time)
    | CrashStep(actor: Id)
    | ApprovalStep(step: A.Step)

  function Put(s: Sys, actor: Id, next: Option<Actor>): Sys {
    match next
    case None => s.(actors := s.actors - {actor})
    case Some(a) => s.(actors := s.actors[actor := a])
  }

  /** An actor's save, then the phase it goes on with. */
  function AfterSave(a: Actor): Option<Actor>
    requires a.Saving?
  {
    match a.next
    case ThenDraft => Some(Drafting(a.copy))
    case ThenCode => Some(Coding(a.copy))
    case ThenStop => None
  }

  function AfterAnswer(s: Sys, actor: Id, answered: (A.Requests, Actor)): Sys {
    Put(s.(approvals := s.approvals.(requests := answered.0)), actor, Some(answered.1))
  }

  function AfterPublish(s: Sys, actor: Id, answered: (Option<Draft>, Actor)): Sys {
    Put(s.(drafts := if answered.0.Some? then s.drafts + [answered.0.value] else s.drafts), actor, Some(answered.1))
  }

  function Apply(h: Policy, s: Sys, step: Step): Sys {
    match step
    case CreateStep(newId, info, now) => s.(rows := Create(s.rows, newId, info, now))
    case ProcessStep(actor, repair, agent) =>
      if actor in s.actors || repair !in s.rows then s else Put(s, actor, Dispatch(s.rows[repair], agent))
    case ConsumeStartStep(actor, repair, phase, digest, key, actorId) =>
      if actor in s.actors || repair !in s.rows then s
      else Put(s, actor, ConsumeStart(s.rows[repair], phase, digest, key, actorId))
    case SaveStep(actor, now) =>
      if actor !in s.actors || !s.actors[actor].Saving? then s
      else Put(s.(rows := Update(s.rows, s.actors[actor].copy, now)), actor, AfterSave(s.actors[actor]))
    case DraftStep(actor, plan, newId, now, code) =>
      if actor !in s.actors || !s.actors[actor].Drafting? then s
      else
        AfterAnswer(s, actor, PlanAnswered(h, s.approvals.requests, s.actors[actor].copy, plan, newId, now, code))
    case CodeStep(actor, patch, newId, now, code) =>
      if actor !in s.actors || !s.actors[actor].Coding? then s
      else
        AfterAnswer(s, actor, PatchAnswered(h, s.approvals.requests, s.actors[actor].copy, patch, newId, now, code))
    case PublishStep(actor, answer) =>
      if actor !in s.actors || !s.actors[actor].Publishing? then s
      else
        AfterPublish(s, actor, PublishAnswered(h, s.actors[actor].copy, answer))
    case ConsumeStep(actor, now) =>
      if actor !in s.actors || !s.actors[actor].Consuming? then s
      else
        var consumed := A.ConsumeChecked(s.approvals.requests, ConsumeInputOf(s.actors[actor], now));
        Put(s.(approvals := s.approvals.(requests := consumed.requests)), actor, ConsumeAnswered(s.actors[actor], consumed.result))
    case CrashStep(actor) => Put(s, actor, None)
    case ApprovalStep(step) => s.(approvals := A.Apply(s.approvals, step))
  }

  /** Any interleaving of workers, stale ones included, consumers, crashes and approval calls. */
  ghost predicate Behaviour(h: Policy, states: seq<Sys>, steps: seq<Step>) {
    && |states| == |steps| + 1
    && forall i :: 0 <= i < |steps| ==> states[i + 1] == Apply(h, states[i], steps[i])
  }
}
