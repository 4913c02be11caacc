/** ConsumeApproval as one call over the approval rows, the repair rows and the
    task queue, and what a call that is cut off part way leaves to a replay. */
module RepairService {
  import opened Base
  import opened Repair
  import A = Approvals
  import T = Tasks
  import ApprovalStore
  import Processor
  import RepairProofs
  import RepairTheorems
  import P = ApprovalProofs
  import TaskStore

  datatype World = World(rows: Rows, requests: A.Requests, store: T.Store)

  datatype Error = NotFound | ApprovalPhase | Forbidden | Refused(error: A.Error) | RetryFailed(retry: T.Error) | Interrupted

  /** Where a call is cut off, if at all. */
  datatype Cut = Whole | AfterConsume | AfterUpdate

  /** One call: the repair, what the caller quotes, and the clock readings of its three writes. */
  datatype Call = Call(repair: Id, phase: Phase, digest: string, key: string, actorId: Id, note: string,
                       consumeAt: Time, updateAt: Time, retryAt: Time)

  function ConsumeOf(call: Call, copy: Row): A.ConsumeInput {
    A.ConsumeInput(ApprovalOf(copy, call.phase), call.actorId, call.digest, call.key, call.consumeAt)
  }

  function ApprovedCopy(copy: Row, phase: Phase): Row {
    copy.(state := NextApproved(phase), failureCode := NoFailure)
  }

  /** The stored row, then the queue: the part of the call after the approval is consumed. */
  function Resume(w: World, call: Call, copy: Row, cut: Cut): (World, Result<Row, Error>) {
    var w2 := w.(rows := Update(w.rows, ApprovedCopy(copy, call.phase), call.updateAt));
    if cut == AfterUpdate then (w2, Err(Interrupted))
    else if copy.id !in w2.rows then (w2, Err(NotFound))
    else
      var retried := T.RetryTask(w2.store, copy.info.taskId, call.note, call.retryAt);
      (w2.(store := retried.store), if retried.result.Ok? then Ok(w2.rows[copy.id]) else Err(RetryFailed(retried.result.error)))
  }

  function ConsumeApproval(w: World, call: Call, cut: Cut): (World, Result<Row, Error>) {
    if call.repair !in w.rows then (w, Err(NotFound))
    else
      var copy := w.rows[call.repair];
      if copy.state == NextApproved(call.phase) then (w, Ok(copy))
      else if copy.state != Awaiting(call.phase) || ApprovalOf(copy, call.phase) == "" then (w, Err(ApprovalPhase))
      else if Blank(call.actorId) then (w, Err(Forbidden))
      else
        var consumed := A.ConsumeChecked(w.requests, ConsumeOf(call, copy));
        var w1 := w.(requests := consumed.requests);
        if consumed.result.Err? then (w1, Err(Refused(consumed.result.error)))
        else if consumed.result.value.info.action != ActionOf(call.phase) then (w1, Err(ApprovalPhase))
        else if cut == AfterConsume then (w1, Err(Interrupted))
        else Resume(w1, call, copy, cut)
  }

  lemma ConsumeTwice(requests: A.Requests, input: A.ConsumeInput, later: A.ConsumeInput)
    requires A.ConsumeChecked(requests, input).result.Ok?
    requires later.approvalId == input.approvalId && later.actorId == input.actorId && later.actionDigest == input.actionDigest
    ensures var first := A.ConsumeChecked(requests, input);
            A.ConsumeChecked(first.requests, later) ==
              (if A.CheckConsume(later).Some? then A.Outcome(first.requests, Err(A.CheckConsume(later).value))
               else if later.key == first.requests[input.approvalId].consumptionKey then first
               else A.Outcome(first.requests, Err(A.ErrConsumed)))
  {
  }

  predicate SameRequest(call: Call, replay: Call) {
    replay.repair == call.repair && replay.phase == call.phase && replay.digest == call.digest && replay.actorId == call.actorId
  }

  /** Crash healing: a call cut off between consuming the approval and storing the repair leaves the row
      as it was, and its replay with the same key ends exactly where the uncut call would have ended had
      it made its two remaining writes at the replay's times, with the same answer. */
  lemma CrashHealing(w: World, call: Call, replay: Call)
    requires SameRequest(call, replay) && replay.key == call.key
    requires ConsumeApproval(w, call, AfterConsume).1 == Err(Interrupted)
    ensures var cut := ConsumeApproval(w, call, AfterConsume).0;
            && cut.rows == w.rows && cut.store == w.store
            && ConsumeApproval(cut, replay, Whole)
               == ConsumeApproval(w, call.(updateAt := replay.updateAt, retryAt := replay.retryAt, note := replay.note), Whole)
  {
    var copy := w.rows[call.repair];
    ConsumeTwice(w.requests, ConsumeOf(call, copy), ConsumeOf(replay, copy));
  }

  /** Replaying that cut call under any other valid key is refused as already consumed and changes nothing. */
  lemma OtherKeyNeverHeals(w: World, call: Call, replay: Call)
    requires SameRequest(call, replay) && replay.key != call.key && A.ValidKey(replay.key)
    requires ConsumeApproval(w, call, AfterConsume).1 == Err(Interrupted)
    ensures var cut := ConsumeApproval(w, call, AfterConsume).0;
            ConsumeApproval(cut, replay, Whole) == (cut, Err(Refused(A.ErrConsumed)))
  {
    var copy := w.rows[call.repair];
    ConsumeTwice(w.requests, ConsumeOf(call, copy), ConsumeOf(replay, copy));
  }

  /** A call cut off between storing the repair and re-queueing the task is never healed: every replay
      answers with the stored row at once and changes nothing, so the task keeps the status it had. */
  lemma CutBeforeRetryNeverRetries(w: World, call: Call, replay: Call, cut: Cut)
    requires replay.repair == call.repair && replay.phase == call.phase
    requires call.repair in w.rows && w.rows[call.repair].id == call.repair
    requires w.rows[call.repair].state != NextApproved(call.phase)
    requires ConsumeApproval(w, call, AfterUpdate).1 == Err(Interrupted)
    ensures var stuck := ConsumeApproval(w, call, AfterUpdate).0;
            && stuck.store == w.store && call.repair in stuck.rows
            && ConsumeApproval(stuck, replay, cut) == (stuck, Ok(stuck.rows[call.repair]))
    ensures ConsumeApproval(w, call, Whole).1.Ok? ==> ConsumeApproval(w, call, Whole).0.store != ConsumeApproval(w, call, AfterUpdate).0.store
  {
    RetryMovesTheTask(w.store, w.rows[call.repair].info.taskId, call.note, call.retryAt);
  }

  /** The replay's times and note in the uncut call. */
  function Retimed(call: Call, replay: Call): Call {
    call.(updateAt := replay.updateAt, retryAt := replay.retryAt, note := replay.note)
  }

  /** Exactly when replaying an interrupted call with its key brings the task queue where the uncut call
      would have: it was cut off before the repair was stored, or the uncut call's own retry is refused. */
  lemma ReplayCompletesExactly(w: World, call: Call, replay: Call, cut: Cut)
    requires SameRequest(call, replay) && replay.key == call.key && cut != Whole
    requires call.repair in w.rows && w.rows[call.repair].id == call.repair && w.rows[call.repair].state != NextApproved(call.phase)
    requires ConsumeApproval(w, call, cut).1 == Err(Interrupted)
    ensures var uncut := ConsumeApproval(w, Retimed(call, replay), Whole);
            var again := ConsumeApproval(ConsumeApproval(w, call, cut).0, replay, Whole);
            again.0.store == uncut.0.store <==> cut == AfterConsume || uncut.1.Err?
  {
    if cut == AfterConsume {
      CrashHealing(w, call, replay);
    } else {
      CutBeforeRetryNeverRetries(w, call, replay, Whole);
      RetryMovesTheTask(w.store, w.rows[call.repair].info.taskId, replay.note, replay.retryAt);
    }
  }

  lemma RetryMovesTheTask(store: T.Store, id: Id, note: string, now: Time)
    ensures T.RetryTask(store, id, note, now).store == store <==> T.RetryTask(store, id, note, now).result.Err?
  {
  }

  /** An uncut call that succeeds has stored the approved state and re-queued the task. */
  lemma WholeCallRequeues(w: World, call: Call)
    requires call.repair in w.rows && w.rows[call.repair].id == call.repair
    requires w.rows[call.repair].state != NextApproved(call.phase)
    ensures var (w', r) := ConsumeApproval(w, call, Whole);
            var task := w.rows[call.repair].info.taskId;
            r.Ok? ==> task in w'.store.tasks && w'.store.tasks[task].status == T.Queued
                      && call.repair in w'.rows && w'.rows[call.repair].state == NextApproved(call.phase)
  {
  }

  // ----- the call and the steps of the workflow -----

  function Started(call: Call, actor: Id): Step {
    ConsumeStartStep(actor, call.repair, call.phase, call.digest, call.key, call.actorId)
  }

  /** The system with the rows and requests of w. */
  function With(s: Sys, w: World): Sys {
    s.(rows := w.rows, approvals := s.approvals.(requests := w.requests))
  }

  lemma StartedActor(h: Policy, s: Sys, call: Call, actor: Id)
    requires actor !in s.actors
    ensures var next := if call.repair in s.rows then ConsumeStart(s.rows[call.repair], call.phase, call.digest, call.key, call.actorId) else None;
            Apply(h, s, Started(call, actor)) == s.(actors := if next.Some? then s.actors[actor := next.value] else s.actors)
  {
  }

  lemma ConsumedActor(h: Policy, s: Sys, actor: Id, c: Actor, now: Time)
    requires actor !in s.actors && c.Consuming?
    ensures var consumed := A.ConsumeChecked(s.approvals.requests, ConsumeInputOf(c, now));
            var next := ConsumeAnswered(c, consumed.result);
            Apply(h, s.(actors := s.actors[actor := c]), ConsumeStep(actor, now))
            == s.(approvals := s.approvals.(requests := consumed.requests),
                  actors := if next.Some? then s.actors[actor := next.value] else s.actors)
  {
    assert s.actors[actor := c] - {actor} == s.actors;
  }

  lemma SavedActor(h: Policy, s: Sys, actor: Id, copy: Row, now: Time)
    requires actor !in s.actors
    ensures Apply(h, s.(actors := s.actors[actor := Saving(copy, ThenStop)]), SaveStep(actor, now)) == s.(rows := Update(s.rows, copy, now))
    ensures Apply(h, s.(actors := s.actors[actor := Saving(copy, ThenStop)]), CrashStep(actor)) == s
  {
    assert s.actors[actor := Saving(copy, ThenStop)] - {actor} == s.actors;
  }

  lemma AbsentActor(h: Policy, s: Sys, actor: Id, now: Time)
    requires actor !in s.actors
    ensures Apply(h, s, ConsumeStep(actor, now)) == s && Apply(h, s, SaveStep(actor, now)) == s && Apply(h, s, CrashStep(actor)) == s
  {
    assert s.actors - {actor} == s.actors;
  }

  /** A call is the workflow's steps start, consume and save by an actor of its own, among any others;
      a call cut off after the consumption is the same with a crash instead of the save. */
  lemma CallIsSteps(h: Policy, s: Sys, store: T.Store, call: Call, actor: Id)
    requires actor !in s.actors
    ensures var w, s2 := World(s.rows, s.approvals.requests, store), Apply(h, Apply(h, s, Started(call, actor)), ConsumeStep(actor, call.consumeAt));
            && Apply(h, s2, SaveStep(actor, call.updateAt)) == With(s, ConsumeApproval(w, call, Whole).0)
            && Apply(h, s2, SaveStep(actor, call.updateAt)) == With(s, ConsumeApproval(w, call, AfterUpdate).0)
            && Apply(h, s2, CrashStep(actor)) == With(s, ConsumeApproval(w, call, AfterConsume).0)
  {
    StartedActor(h, s, call, actor);
    if call.repair in s.rows && ConsumeStart(s.rows[call.repair], call.phase, call.digest, call.key, call.actorId).Some? {
      var copy := s.rows[call.repair];
      var c := Consuming(copy, call.phase, call.digest, call.key, call.actorId);
      ConsumedActor(h, s, actor, c, call.consumeAt);
      var consumed := A.ConsumeChecked(s.approvals.requests, ConsumeOf(call, copy));
      assert ConsumeInputOf(c, call.consumeAt) == ConsumeOf(call, copy);
      var s2 := s.(approvals := s.approvals.(requests := consumed.requests));
      if ConsumeAnswered(c, consumed.result).Some? {
        SavedActor(h, s2, actor, ApprovedCopy(copy, call.phase), call.updateAt);
      } else {
        AbsentActor(h, s2, actor, call.updateAt);
      }
    } else {
      AbsentActor(h, s, actor, call.consumeAt);
      AbsentActor(h, s, actor, call.updateAt);
    }
  }

  /** Healing among others: once an actor has consumed an approval, at any later moment of any behaviour
      at which the repair still awaits that approval, a call that quotes the same digest and key finds the
      approval its own, changes no request, and goes on to store the repair and re-queue its task. */
  lemma HealsAmongOthers(h: Policy, states: seq<Sys>, steps: seq<Step>, i: nat, j: nat, store: T.Store, replay: Call, cut: Cut)
    requires GoodDigests(h) && Behaviour(h, states, steps) && states[0] == START && i < j <= |steps| && cut != AfterConsume
    requires steps[i].ConsumeStep? && steps[i].actor in states[i].actors && states[i].actors[steps[i].actor].Consuming?
    requires var c := states[i].actors[steps[i].actor];
             && ConsumeAnswered(c, A.ConsumeChecked(states[i].approvals.requests, ConsumeInputOf(c, steps[i].now)).result).Some?
             && replay.phase == c.phase && replay.digest == c.digest && replay.key == c.key && !Blank(replay.actorId)
             && replay.repair in states[j].rows && states[j].rows[replay.repair].state == Awaiting(c.phase)
             && ApprovalOf(states[j].rows[replay.repair], c.phase) == ApprovalOf(c.copy, c.phase)
    ensures var w := World(states[j].rows, states[j].approvals.requests, store);
            ConsumeApproval(w, replay, cut) == Resume(w, replay, states[j].rows[replay.repair], cut)
  {
    var c := states[i].actors[steps[i].actor];
    var copy := states[j].rows[replay.repair];
    assert ApprovalOf(c.copy, c.phase) != "" by {
      RepairProofs.InvAlong(h, states, steps, i);
      assert RepairProofs.GoodActor(h, states[i], c);
    }
    ReplayedLater(h, states, steps, i, j, c, ConsumeOf(replay, copy));
  }

  lemma ReplayedLater(h: Policy, states: seq<Sys>, steps: seq<Step>, i: nat, j: nat, c: Actor, again: A.ConsumeInput)
    requires Behaviour(h, states, steps) && states[0] == START && i < j <= |steps|
    requires steps[i].ConsumeStep? && steps[i].actor in states[i].actors && states[i].actors[steps[i].actor] == c && c.Consuming?
    requires ConsumeAnswered(c, A.ConsumeChecked(states[i].approvals.requests, ConsumeInputOf(c, steps[i].now)).result).Some?
    requires again.approvalId == ApprovalOf(c.copy, c.phase) && again.actionDigest == c.digest && again.key == c.key && !Blank(again.actorId)
    ensures var o := A.ConsumeChecked(states[j].approvals.requests, again);
            o.requests == states[j].approvals.requests && o.result.Ok? && o.result.value.info.action == ActionOf(c.phase)
  {
    var astates, asteps := RepairTheorems.ApprovalStates(states), RepairTheorems.ApprovalSteps(h, states, steps);
    RepairTheorems.ProjectionIsABehaviour(h, states, steps);
    var input := ConsumeInputOf(c, steps[i].now);
    assert asteps[i] == A.ConsumeStep(input);
    P.ConsumeReplay(astates, asteps, i, j, input, again);
    assert A.CheckConsume(again).None?;
  }

  /** The call as the service makes it: consume the approval, store the repair, re-queue the task. */
  method ConsumeAndResume(repairs: Processor.RepairStore, approvals: ApprovalStore.PostgreSQLStore, tasks: TaskStore.PostgreSQLStore, call: Call)
    returns (r: Result<Row, Error>)
    modifies repairs, approvals, tasks
    ensures (World(repairs.rows, approvals.requests, tasks.State()), r)
         == ConsumeApproval(World(old(repairs.rows), old(approvals.requests), old(tasks.State())), call, Whole)
  {
    if call.repair !in repairs.rows {
      return Err(NotFound);
    }
    var copy := repairs.rows[call.repair];
    var approvalId, expected, action, next := copy.planApproval, AwaitingPlanApproval, A.RepairPlan, PlanApproved;
    if call.phase == PatchPhase {
      approvalId, expected, action, next := copy.patchApproval, AwaitingPatchApproval, A.PublishPatch, PatchApproved;
    }
    if copy.state == next {
      return Ok(copy);
    }
    if copy.state != expected || approvalId == "" {
      return Err(ApprovalPhase);
    }
    if Blank(call.actorId) {
      return Err(Forbidden);
    }
    var request := ApprovalStore.ConsumeRequest(
      approvals, A.ConsumeInput(approvalId, call.actorId, call.digest, call.key, call.consumeAt));
    if request.Err? {
      return Err(Refused(request.error));
    }
    if request.value.info.action != action {
      return Err(ApprovalPhase);
    }
    r := StoreAndRetry(repairs, tasks, call, copy, approvals.requests);
  }

  method StoreAndRetry(repairs: Processor.RepairStore, tasks: TaskStore.PostgreSQLStore, call: Call, copy: Row, ghost requests: A.Requests)
    returns (r: Result<Row, Error>)
    modifies repairs, tasks
    ensures (World(repairs.rows, requests, tasks.State()), r)
         == Resume(World(old(repairs.rows), requests, old(tasks.State())), call, copy, Whole)
  {
    var ok := repairs.Update(copy.(state := NextApproved(call.phase), failureCode := NoFailure), call.updateAt);
    if !ok {
      return Err(NotFound);
    }
    var retried := tasks.RetryTask(copy.info.taskId, call.note, call.retryAt);
    if retried.Err? {
      return Err(RetryFailed(retried.error));
    }
    return Ok(repairs.rows[copy.id]);
  }
}
