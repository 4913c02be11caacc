/** The main results about the repair workflow. */
module RepairTheorems {
  import opened Base
  import opened PatchPolicy
  import PatchRules
  import opened Repair
  import opened RepairProofs
  import A = Approvals
  import P = ApprovalProofs

  // ----- the publish gate -----

  /** The agent offered patch p in one of the first n steps. */
  ghost predicate Offered(steps: seq<Step>, n: nat, p: Patch) {
    exists i :: 0 <= i < n && i < |steps| && steps[i].CodeStep? && steps[i].patch == Some(p)
  }

  /** No two different patches offered so far have the same digest. */
  ghost predicate CollisionFree(h: Policy, steps: seq<Step>, n: nat) {
    forall p, q :: Offered(steps, n, p) && Offered(steps, n, q) && h.patch(p) == h.patch(q) ==> p == q
  }

  ghost predicate Holds(c: Row, pool: iset<Patch>) {
    c.patch.Some? ==> c.patch.value in pool
  }

  /** Every patch in a row, a copy or a draft comes from the pool. */
  ghost predicate Within(s: Sys, pool: iset<Patch>) {
    && (forall r :: r in s.rows ==> Holds(s.rows[r], pool))
    && (forall a :: a in s.actors ==> Holds(s.actors[a].copy, pool))
    && (forall i :: 0 <= i < |s.drafts| ==> s.drafts[i].patch in pool)
  }

  lemma PutWithin(s: Sys, actor: Id, next: Option<Actor>, pool: iset<Patch>)
    requires Within(s, pool) && (next.Some? ==> Holds(next.value.copy, pool))
    ensures Within(Put(s, actor, next), pool)
  {
  }

  lemma AnswerWithin(s: Sys, step: Step, h: Policy, pool: iset<Patch>)
    requires Within(s, pool) && (step.DraftStep? || step.CodeStep?)
    requires step.CodeStep? && step.patch.Some? ==> step.patch.value in pool
    ensures Within(Apply(h, s, step), pool)
  {
    var actor := step.actor;
    if step.DraftStep? && actor in s.actors && s.actors[actor].Drafting? {
      var answered := PlanAnswered(h, s.approvals.requests, s.actors[actor].copy, step.plan, step.newId, step.now, step.code);
      assert Apply(h, s, step) == AfterAnswer(s, actor, answered);
      PutWithin(s.(approvals := s.approvals.(requests := answered.0)), actor, Some(answered.1), pool);
    } else if step.CodeStep? && actor in s.actors && s.actors[actor].Coding? {
      var answered := PatchAnswered(h, s.approvals.requests, s.actors[actor].copy, step.patch, step.newId, step.now, step.code);
      assert Apply(h, s, step) == AfterAnswer(s, actor, answered);
      PutWithin(s.(approvals := s.approvals.(requests := answered.0)), actor, Some(answered.1), pool);
    }
  }

  lemma PublishWithin(h: Policy, s: Sys, actor: Id, answer: Publication, pool: iset<Patch>)
    requires Within(s, pool) && actor in s.actors && s.actors[actor].Publishing? && GoodActor(h, s, s.actors[actor])
    ensures Within(Apply(h, s, PublishStep(actor, answer)), pool)
  {
    var c := s.actors[actor].copy;
    assert c.patch.Some?;
    var answered := PublishAnswered(h, c, answer);
    assert Apply(h, s, PublishStep(actor, answer)) == AfterPublish(s, actor, answered);
    PutWithin(s.(drafts := if answered.0.Some? then s.drafts + [answered.0.value] else s.drafts), actor, Some(answered.1), pool);
  }

  lemma ConsumeWithin(h: Policy, s: Sys, actor: Id, now: Time, pool: iset<Patch>)
    requires Within(s, pool)
    ensures Within(Apply(h, s, ConsumeStep(actor, now)), pool)
  {
    if actor in s.actors && s.actors[actor].Consuming? {
      var consumed := A.ConsumeChecked(s.approvals.requests, ConsumeInputOf(s.actors[actor], now));
      PutWithin(s.(approvals := s.approvals.(requests := consumed.requests)), actor, ConsumeAnswered(s.actors[actor], consumed.result), pool);
    }
  }

  lemma RowsWithin(h: Policy, s: Sys, step: Step, pool: iset<Patch>)
    requires Within(s, pool) && (step.CreateStep? || step.SaveStep? || step.CrashStep? || step.ApprovalStep?)
    ensures Within(Apply(h, s, step), pool)
  {
    if step.SaveStep? && step.actor in s.actors && s.actors[step.actor].Saving? {
      var a := s.actors[step.actor];
      var s' := s.(rows := Update(s.rows, a.copy, step.now));
      assert Within(s', pool);
      PutWithin(s', step.actor, AfterSave(a), pool);
    }
  }

  lemma StartWithin(h: Policy, s: Sys, step: Step, pool: iset<Patch>)
    requires Within(s, pool) && (step.ProcessStep? || step.ConsumeStartStep?)
    ensures Within(Apply(h, s, step), pool)
  {
    if step.actor !in s.actors && step.repair in s.rows {
      var row := s.rows[step.repair];
      assert Holds(row, pool);
      var next := if step.ProcessStep? then Dispatch(row, step.agent)
                  else ConsumeStart(row, step.phase, step.digest, step.key, step.actorId);
      assert Apply(h, s, step) == Put(s, step.actor, next);
      PutWithin(s, step.actor, next, pool);
    }
  }

  lemma StepWithin(h: Policy, s: Sys, step: Step, pool: iset<Patch>)
    requires Inv(h, s) && Within(s, pool)
    requires step.CodeStep? && step.patch.Some? ==> step.patch.value in pool
    ensures Within(Apply(h, s, step), pool)
  {
    match step
    case DraftStep(_, _, _, _, _) => AnswerWithin(s, step, h, pool);
    case CodeStep(_, _, _, _, _) => AnswerWithin(s, step, h, pool);
    case PublishStep(actor, answer) =>
      if actor in s.actors && s.actors[actor].Publishing? {
        assert GoodActor(h, s, s.actors[actor]);
        PublishWithin(h, s, actor, answer, pool);
      }
    case ConsumeStep(actor, now) => ConsumeWithin(h, s, actor, now, pool);
    case ProcessStep(_, _, _) => StartWithin(h, s, step, pool);
    case ConsumeStartStep(_, _, _, _, _, _) => StartWithin(h, s, step, pool);
    case _ => RowsWithin(h, s, step, pool);
  }

  /** Every patch held anywhere was offered by the agent in a patch phase. */
  lemma {:induction false} HeldPatchesWereOffered(h: Policy, states: seq<Sys>, steps: seq<Step>, i: nat, n: nat)
    requires GoodDigests(h) && Behaviour(h, states, steps) && states[0] == START && i <= n <= |steps|
    ensures Within(states[i], iset p | Offered(steps, n, p))
    decreases i
  {
    if i > 0 {
      HeldPatchesWereOffered(h, states, steps, i - 1, n);
      assert Inv(h, states[i - 1]) by { InvAlong(h, states, steps, i - 1); }
      var pool := iset p | Offered(steps, n, p);
      assert Within(states[i], pool) by { StepWithin(h, states[i - 1], steps[i - 1], pool); }
    }
  }

  /** In every interleaving, every draft ever published came from a copy whose plan and patch approvals
      are both consumed, the patch passed every check, it is based on the repair's base commit, and the
      agent offered it. If the digest does not collide on the patches offered so far, then the patch
      approval's digest is that of the published patch and of no other of them. */
  lemma PublishGate(h: Policy, states: seq<Sys>, steps: seq<Step>, n: nat, d: Draft)
    requires Standard(h) && Behaviour(h, states, steps) && states[0] == START && n <= |steps|
    requires d in states[n].drafts
    ensures Gated(h, states[n], d) && PatchRules.Publishable(d.patch, d.input.baseSha) && Offered(steps, n, d.patch)
    ensures CollisionFree(h, steps, n) ==>
      forall p :: Offered(steps, n, p) && h.patch(p) == states[n].approvals.requests[d.copy.patchApproval].info.actionDigest ==> p == d.patch
  {
    InvAlong(h, states, steps, n);
    HeldPatchesWereOffered(h, states, steps, n, n);
    var i :| 0 <= i < |states[n].drafts| && states[n].drafts[i] == d;
    assert Gated(h, states[n], d);
    PatchRules.AcceptedInCharacters(d.patch, d.input.baseSha);
  }

  /** A draft appears only in a publish step, and the gate already holds in the state before that step. */
  lemma GateHoldsBeforePublishing(h: Policy, states: seq<Sys>, steps: seq<Step>, i: nat)
    requires Standard(h) && Behaviour(h, states, steps) && states[0] == START && i < |steps|
    ensures states[i + 1].drafts == states[i].drafts
         || exists d :: states[i + 1].drafts == states[i].drafts + [d] && steps[i].PublishStep? && Gated(h, states[i], d)
  {
    InvAlong(h, states, steps, i);
    var s := states[i];
    if steps[i].PublishStep? {
      var actor, answer := steps[i].actor, steps[i].answer;
      if actor in s.actors && s.actors[actor].Publishing? {
        var c := s.actors[actor].copy;
        assert GoodActor(h, s, Publishing(c)) by { assert GoodActor(h, s, s.actors[actor]); }
        var answered := PublishAnswered(h, c, answer);
        assert states[i + 1] == AfterPublish(s, actor, answered);
        PublishedCopy(h, s, c, answer);
      }
    } else {
      OnlyPublishingDrafts(h, s, steps[i]);
    }
  }

  lemma OnlyPublishingDrafts(h: Policy, s: Sys, step: Step)
    requires !step.PublishStep?
    ensures Apply(h, s, step).drafts == s.drafts
  {
  }

  /** The approval system of a repair behaviour is itself a behaviour of the approval gate. */
  ghost function ApprovalStates(states: seq<Sys>): seq<A.Sys> {
    seq(|states|, i requires 0 <= i < |states| => states[i].approvals)
  }

  ghost function ApprovalSteps(h: Policy, states: seq<Sys>, steps: seq<Step>): seq<A.Step>
    requires |states| == |steps| + 1
  {
    seq(|steps|, i requires 0 <= i < |steps| => Projected(h, states[i], steps[i]))
  }

  lemma ProjectionIsABehaviour(h: Policy, states: seq<Sys>, steps: seq<Step>)
    requires Behaviour(h, states, steps)
    ensures A.Behaviour(ApprovalStates(states), ApprovalSteps(h, states, steps))
  {
    forall i | 0 <= i < |steps|
      ensures ApprovalStates(states)[i + 1] == A.Apply(ApprovalStates(states)[i], ApprovalSteps(h, states, steps)[i])
    {
      assert states[i + 1] == Apply(h, states[i], steps[i]);
      ProjectedStep(h, states[i], steps[i]);
    }
  }

  /** End to end: behind every published draft stand two requests, one for exactly its plan and one for
      exactly its patch, each approved before its expiry by an admin or maintainer eligible to decide it
      and then consumed by a call that quoted its digest. */
  lemma PublishedWasApprovedTwice(h: Policy, states: seq<Sys>, steps: seq<Step>, n: nat, d: Draft)
    requires Standard(h) && Behaviour(h, states, steps) && states[0] == START && n <= |steps| && d in states[n].drafts
    ensures var astates, asteps := ApprovalStates(states), ApprovalSteps(h, states, steps);
            && P.WasConsumed(astates, asteps, n, d.copy.planApproval)
            && P.WasConsumed(astates, asteps, n, d.copy.patchApproval)
            && (exists info: A.Info :: info.action == A.RepairPlan && d.copy.plan.Some? && info.actionDigest == h.plan(d.copy.plan.value)
                 && P.WasCreated(astates, asteps, n, d.copy.planApproval, info))
            && (exists info: A.Info :: info.action == A.PublishPatch && info.actionDigest == h.patch(d.patch)
                 && P.WasCreated(astates, asteps, n, d.copy.patchApproval, info))
  {
    PublishGate(h, states, steps, n, d);
    ProjectionIsABehaviour(h, states, steps);
    P.ApprovalHistory(ApprovalStates(states), ApprovalSteps(h, states, steps), n, d.copy.planApproval);
    P.ApprovalHistory(ApprovalStates(states), ApprovalSteps(h, states, steps), n, d.copy.patchApproval);
  }

  lemma InfoStep(h: Policy, s: Sys, step: Step, id: Id)
    requires id in s.rows
    ensures id in Apply(h, s, step).rows && Apply(h, s, step).rows[id].info == s.rows[id].info
  {
  }

  /** No interleaving of blind writes changes a repair's base commit or its other fixed columns. */
  lemma {:induction false} BaseCommitNeverChanges(h: Policy, states: seq<Sys>, steps: seq<Step>, i: nat, j: nat, id: Id)
    requires Behaviour(h, states, steps) && i <= j <= |steps| && id in states[i].rows
    ensures id in states[j].rows && states[j].rows[id].info == states[i].rows[id].info
    decreases j
  {
    if i < j {
      BaseCommitNeverChanges(h, states, steps, i, j - 1, id);
      InfoStep(h, states[j - 1], steps[j - 1], id);
    }
  }
}
