/** Exactly when a published repair stays published, decided from the state it is in: no
    new actor can begin on it, so what matters is who still holds a copy. */
module RepairFinality {
  import opened Base
  import opened Repair
  import opened RepairProofs
  import opened RepairRuns
  import A = Approvals
  import P = ApprovalProofs
  import RepairTheorems
  import opened Processor

  // ----- actors that can still overwrite the row -----

  /** A consumption that can still succeed: its input is well formed, it quotes the digest of the request,
      and the request is undecided, approved, or consumed under the same key. */
  predicate CanStillConsume(requests: A.Requests, c: Actor)
    requires c.Consuming?
  {
    && A.CheckConsume(ConsumeInputOf(c, 0)).None?
    && ApprovalOf(c.copy, c.phase) in requests
    && var q := requests[ApprovalOf(c.copy, c.phase)];
       && q.info.actionDigest == c.digest
       && (q.state == A.Pending || q.state == A.Approved || (q.state == A.Consumed && q.consumptionKey == c.key))
  }

  /** The actor works on repair r and can still bring a copy of it to a save in another state. */
  predicate Threatens(s: Sys, a: Actor, r: Id) {
    && a.copy.id == r
    && match a
       case Saving(copy, _) => copy.state != Published
       case Consuming(_, _, _, _, _) => CanStillConsume(s.approvals.requests, a)
       case _ => true
  }

  ghost predicate Calm(s: Sys, r: Id) {
    forall a :: a in s.actors ==> !Threatens(s, s.actors[a], r)
  }

  // ----- without such an actor the row stays published -----

  lemma StaysUnconsumable(requests: A.Requests, requests': A.Requests, c: Actor)
    requires c.Consuming? && ApprovalOf(c.copy, c.phase) in requests
    requires !CanStillConsume(requests, c) && P.RequestsStep(requests, requests')
    ensures !CanStillConsume(requests', c)
  {
    var id := ApprovalOf(c.copy, c.phase);
    assert P.RowStep(requests[id], requests'[id]);
  }

  lemma UnconsumableFails(requests: A.Requests, c: Actor, now: Time)
    requires c.Consuming? && ApprovalOf(c.copy, c.phase) in requests && !CanStillConsume(requests, c)
    ensures A.ConsumeChecked(requests, ConsumeInputOf(c, now)).result.Err?
  {
    assert A.CheckConsume(ConsumeInputOf(c, now)) == A.CheckConsume(ConsumeInputOf(c, 0));
  }

  lemma NamesARequest(h: Policy, s: Sys, a: Actor)
    requires a.Consuming? && GoodActor(h, s, a)
    ensures ApprovalOf(a.copy, a.phase) in s.approvals.requests
    ensures s.approvals.requests[ApprovalOf(a.copy, a.phase)].info.action == ActionOf(a.phase)
  {
  }

  lemma StaysHarmless(h: Policy, s: Sys, s': Sys, a: Actor, r: Id)
    requires GoodActor(h, s, a) && !Threatens(s, a, r) && P.RequestsStep(s.approvals.requests, s'.approvals.requests)
    ensures !Threatens(s', a, r)
  {
    if a.Consuming? && a.copy.id == r {
      NamesARequest(h, s, a);
      StaysUnconsumable(s.approvals.requests, s'.approvals.requests, a);
    }
  }

  /** Every actor after the step was there before, or works on another repair. */
  ghost predicate NoNewWorker(s: Sys, s': Sys, r: Id) {
    forall x :: x in s'.actors ==> (x in s.actors && s'.actors[x] == s.actors[x]) || s'.actors[x].copy.id != r
  }

  lemma PutNoNewWorker(s: Sys, base: Sys, actor: Id, next: Option<Actor>, r: Id)
    requires base.actors == s.actors && (next.Some? ==> next.value.copy.id != r)
    ensures NoNewWorker(s, Put(base, actor, next), r)
  {
  }

  lemma StartNoNewWorker(h: Policy, s: Sys, step: Step, r: Id)
    requires (step.ProcessStep? || step.ConsumeStartStep?) && IsPublished(s, r)
    requires forall id :: id in s.rows ==> s.rows[id].id == id
    ensures NoNewWorker(s, Apply(h, s, step), r) && IsPublished(Apply(h, s, step), r)
  {
    if step.actor !in s.actors && step.repair in s.rows {
      var row := s.rows[step.repair];
      var next := if step.ProcessStep? then Dispatch(row, step.agent)
                  else ConsumeStart(row, step.phase, step.digest, step.key, step.actorId);
      assert Apply(h, s, step) == Put(s, step.actor, next);
      assert step.repair == r ==> next.None?;
      assert next.Some? ==> next.value.copy.id == row.id;
      PutNoNewWorker(s, s, step.actor, next, r);
    }
  }

  lemma SaveNoNewWorker(h: Policy, s: Sys, actor: Id, now: Time, r: Id)
    requires IsPublished(s, r) && actor in s.actors && s.actors[actor].Saving?
    requires GoodActor(h, s, s.actors[actor]) && !Threatens(s, s.actors[actor], r)
    ensures NoNewWorker(s, Apply(h, s, SaveStep(actor, now)), r) && IsPublished(Apply(h, s, SaveStep(actor, now)), r)
  {
    var a := s.actors[actor];
    var base := s.(rows := Update(s.rows, a.copy, now));
    assert Apply(h, s, SaveStep(actor, now)) == Put(base, actor, AfterSave(a));
    assert AfterSave(a).Some? ==> AfterSave(a).value.copy.id != r;
    PutNoNewWorker(s, base, actor, AfterSave(a), r);
  }

  lemma AnswerNoNewWorker(h: Policy, s: Sys, step: Step, r: Id)
    requires IsPublished(s, r) && (step.DraftStep? || step.CodeStep?) && step.actor in s.actors
    requires if step.DraftStep? then s.actors[step.actor].Drafting? else s.actors[step.actor].Coding?
    requires s.actors[step.actor].copy.id != r
    ensures NoNewWorker(s, Apply(h, s, step), r) && IsPublished(Apply(h, s, step), r)
  {
    var c := s.actors[step.actor].copy;
    var answered := if step.DraftStep? then PlanAnswered(h, s.approvals.requests, c, step.plan, step.newId, step.now, step.code)
                    else PatchAnswered(h, s.approvals.requests, c, step.patch, step.newId, step.now, step.code);
    assert Apply(h, s, step) == AfterAnswer(s, step.actor, answered);
    assert answered.1.copy.id == c.id;
    PutNoNewWorker(s, s.(approvals := s.approvals.(requests := answered.0)), step.actor, Some(answered.1), r);
  }

  lemma PublishNoNewWorker(h: Policy, s: Sys, actor: Id, answer: Publication, r: Id)
    requires IsPublished(s, r) && actor in s.actors && s.actors[actor].Publishing? && s.actors[actor].copy.id != r
    ensures NoNewWorker(s, Apply(h, s, PublishStep(actor, answer)), r) && IsPublished(Apply(h, s, PublishStep(actor, answer)), r)
  {
    var answered := PublishAnswered(h, s.actors[actor].copy, answer);
    assert Apply(h, s, PublishStep(actor, answer)) == AfterPublish(s, actor, answered);
  }

  lemma ConsumeNoNewWorker(h: Policy, s: Sys, actor: Id, now: Time, r: Id)
    requires IsPublished(s, r) && actor in s.actors && s.actors[actor].Consuming?
    requires GoodActor(h, s, s.actors[actor]) && !Threatens(s, s.actors[actor], r)
    ensures NoNewWorker(s, Apply(h, s, ConsumeStep(actor, now)), r) && IsPublished(Apply(h, s, ConsumeStep(actor, now)), r)
  {
    var c := s.actors[actor];
    var consumed := A.ConsumeChecked(s.approvals.requests, ConsumeInputOf(c, now));
    var base := s.(approvals := s.approvals.(requests := consumed.requests));
    var next := ConsumeAnswered(c, consumed.result);
    assert Apply(h, s, ConsumeStep(actor, now)) == Put(base, actor, next);
    if c.copy.id == r {
      NamesARequest(h, s, c);
      UnconsumableFails(s.approvals.requests, c, now);
    }
    assert next.Some? ==> next.value.copy.id != r;
    PutNoNewWorker(s, base, actor, next, r);
  }

  lemma StepNoNewWorker(h: Policy, s: Sys, step: Step, r: Id)
    requires Inv(h, s) && IsPublished(s, r) && Calm(s, r)
    ensures NoNewWorker(s, Apply(h, s, step), r) && IsPublished(Apply(h, s, step), r)
  {
    match step
    case ProcessStep(_, _, _) => StartNoNewWorker(h, s, step, r);
    case ConsumeStartStep(_, _, _, _, _, _) => StartNoNewWorker(h, s, step, r);
    case SaveStep(actor, now) => if actor in s.actors && s.actors[actor].Saving? { SaveNoNewWorker(h, s, actor, now, r); }
    case DraftStep(actor, _, _, _, _) => if actor in s.actors && s.actors[actor].Drafting? { AnswerNoNewWorker(h, s, step, r); }
    case CodeStep(actor, _, _, _, _) => if actor in s.actors && s.actors[actor].Coding? { AnswerNoNewWorker(h, s, step, r); }
    case PublishStep(actor, answer) => if actor in s.actors && s.actors[actor].Publishing? { PublishNoNewWorker(h, s, actor, answer, r); }
    case ConsumeStep(actor, now) => if actor in s.actors && s.actors[actor].Consuming? { ConsumeNoNewWorker(h, s, actor, now, r); }
    case _ =>
  }

  lemma ApprovalsMoveForward(h: Policy, s: Sys, step: Step)
    requires Inv(h, s)
    ensures P.RequestsStep(s.approvals.requests, Apply(h, s, step).approvals.requests)
  {
    ProjectedStep(h, s, step);
    P.StepKeepsInv(s.approvals, Projected(h, s, step));
  }

  lemma StepKeepsCalm(h: Policy, s: Sys, step: Step, r: Id)
    requires Inv(h, s) && IsPublished(s, r) && Calm(s, r)
    ensures IsPublished(Apply(h, s, step), r) && Calm(Apply(h, s, step), r)
  {
    var s' := Apply(h, s, step);
    assert NoNewWorker(s, s', r) && IsPublished(s', r) by { StepNoNewWorker(h, s, step, r); }
    assert P.RequestsStep(s.approvals.requests, s'.approvals.requests) by { ApprovalsMoveForward(h, s, step); }
    forall x | x in s'.actors
      ensures !Threatens(s', s'.actors[x], r)
    {
      if s'.actors[x].copy.id == r {
        assert GoodActor(h, s, s.actors[x]);
        StaysHarmless(h, s, s', s.actors[x], r);
      }
    }
  }

  lemma {:induction false} CalmAlong(h: Policy, states: seq<Sys>, steps: seq<Step>, n: nat, r: Id)
    requires GoodDigests(h) && Behaviour(h, states, steps) && n <= |steps|
    requires Inv(h, states[0]) && IsPublished(states[0], r) && Calm(states[0], r)
    ensures Inv(h, states[n]) && IsPublished(states[n], r) && Calm(states[n], r)
  {
    if n > 0 {
      CalmAlong(h, states, steps, n - 1, r);
      assert Inv(h, states[n]) by { StepKeepsInv(h, states[n - 1], steps[n - 1]); }
      assert IsPublished(states[n], r) && Calm(states[n], r) by { StepKeepsCalm(h, states[n - 1], steps[n - 1], r); }
    }
  }

  // ----- with one, some continuation overwrites it -----

  lemma TidyRepair(h: Policy, states: seq<Sys>, steps: seq<Step>, n: nat)
    requires Behaviour(h, states, steps) && states[0] == START && n <= |steps|
    ensures P.AllTidy(states[n].approvals.requests)
  {
    RepairTheorems.ProjectionIsABehaviour(h, states, steps);
    P.TidyAlong(RepairTheorems.ApprovalStates(states), RepairTheorems.ApprovalSteps(h, states, steps), n);
  }

  /** Asking without an answer, or publishing without success, and then saving. */
  lemma WorkerOverwrites(h: Policy, s: Sys, x: Id, r: Id) returns (steps: seq<Step>)
    requires x in s.actors && s.actors[x].copy.id == r && IsPublished(s, r)
    requires s.actors[x].Drafting? || s.actors[x].Coding? || s.actors[x].Publishing?
    ensures !IsPublished(Run(h, s, steps), r)
  {
    var c := s.actors[x].copy;
    var ask := if s.actors[x].Drafting? then DraftStep(x, None, "", 0, "")
               else if s.actors[x].Coding? then CodeStep(x, None, "", 0, "")
               else PublishStep(x, Declined);
    var s1 := Apply(h, s, ask);
    assert s1.rows == s.rows && x in s1.actors && s1.actors[x].Saving? && s1.actors[x].copy.id == r && s1.actors[x].copy.state == Failed;
    steps := SaveOverwrites(h, s, [ask], s1, x, r);
  }

  lemma SaveOverwrites(h: Policy, s: Sys, before: seq<Step>, s1: Sys, x: Id, r: Id) returns (steps: seq<Step>)
    requires s1 == Run(h, s, before) && IsPublished(s1, r) && Overwrites(s1, SaveStep(x, 0), r)
    ensures !IsPublished(Run(h, s, steps), r)
  {
    steps := before + [SaveStep(x, 0)];
    RunOneMore(h, s, before, SaveStep(x, 0));
    PublishedStep(h, s1, SaveStep(x, 0), r);
  }

  /** A consumption of an approved request, or one that replays its own, and then the save. */
  lemma ConsumerOverwrites(h: Policy, s: Sys, before: seq<Step>, s1: Sys, x: Id, r: Id) returns (steps: seq<Step>)
    requires s1 == Run(h, s, before) && IsPublished(s1, r) && x in s1.actors && s1.actors[x].Consuming? && s1.actors[x].copy.id == r
    requires GoodActor(h, s1, s1.actors[x]) && CanStillConsume(s1.approvals.requests, s1.actors[x])
    requires var q := s1.approvals.requests[ApprovalOf(s1.actors[x].copy, s1.actors[x].phase)]; P.Tidy(q) && q.state != A.Pending
    ensures !IsPublished(Run(h, s, steps), r)
  {
    var c := s1.actors[x];
    NamesARequest(h, s1, c);
    ConsumptionSucceeds(s1.approvals.requests, c);
    var consumed := A.ConsumeChecked(s1.approvals.requests, ConsumeInputOf(c, 0));
    var s2 := Apply(h, s1, ConsumeStep(x, 0));
    var next := Saving(c.copy.(state := NextApproved(c.phase), failureCode := NoFailure), ThenStop);
    assert s2 == Put(s1.(approvals := s1.approvals.(requests := consumed.requests)), x, Some(next));
    RunOneMore(h, s, before, ConsumeStep(x, 0));
    steps := SaveOverwrites(h, s, before + [ConsumeStep(x, 0)], s2, x, r);
  }

  lemma ConsumptionSucceeds(requests: A.Requests, c: Actor)
    requires c.Consuming? && CanStillConsume(requests, c)
    requires var q := requests[ApprovalOf(c.copy, c.phase)]; P.Tidy(q) && q.state != A.Pending
    ensures var o := A.ConsumeChecked(requests, ConsumeInputOf(c, 0));
            o.result.Ok? && o.result.value.info.action == requests[ApprovalOf(c.copy, c.phase)].info.action
  {
    assert A.ValidKey(c.key);
    assert c.key != "";
  }

  /** An undecided request can be approved, which touches nothing else. */
  lemma ApproveFirst(h: Policy, s: Sys, id: Id) returns (steps: seq<Step>, s2: Sys, input: A.DecisionInput)
    requires GoodDigests(h) && Inv(h, s) && id in s.approvals.requests
    requires P.Tidy(s.approvals.requests[id]) && s.approvals.requests[id].state == A.Pending
    ensures s2 == Run(h, s, steps) && s2.rows == s.rows && s2.actors == s.actors && Inv(h, s2)
    ensures s2.approvals.requests == s.approvals.requests[id := A.DecidedRow(s.approvals.requests[id], input)]
    ensures input.decision == A.Approved
  {
    input := P.PendingCanBeApproved(s.approvals, id, "");
    var check, commit := ApprovalStep(A.CheckDecideStep("", input)), ApprovalStep(A.CommitStep(""));
    var s1 := Apply(h, s, check);
    s2 := Apply(h, s1, commit);
    assert Inv(h, s2) by {
      StepKeepsInv(h, s, check);
      StepKeepsInv(h, s1, commit);
    }
    steps := [check] + [commit];
    RunOneMore(h, s, [], check);
    RunOneMore(h, s, [check], commit);
    assert s2.approvals == A.Apply(A.Apply(s.approvals, A.CheckDecideStep("", input)), A.CommitStep(""));
  }

  lemma ApproveThenConsume(h: Policy, s: Sys, x: Id, r: Id) returns (steps: seq<Step>)
    requires GoodDigests(h) && Inv(h, s) && P.AllTidy(s.approvals.requests) && IsPublished(s, r)
    requires x in s.actors && s.actors[x].Consuming? && Threatens(s, s.actors[x], r)
    ensures !IsPublished(Run(h, s, steps), r)
  {
    var c := s.actors[x];
    var id := ApprovalOf(c.copy, c.phase);
    var q := s.approvals.requests[id];
    assert P.Tidy(q) && GoodActor(h, s, c);
    if q.state == A.Pending {
      var before, s1, input := ApproveFirst(h, s, id);
      assert GoodActor(h, s1, s1.actors[x]);
      assert CanStillConsume(s1.approvals.requests, c) && P.Tidy(A.DecidedRow(q, input));
      steps := ConsumerOverwrites(h, s, before, s1, x, r);
    } else {
      steps := ConsumerOverwrites(h, s, [], s, x, r);
    }
  }

  lemma ThreatOverwrites(h: Policy, s: Sys, x: Id, r: Id) returns (steps: seq<Step>)
    requires GoodDigests(h) && Inv(h, s) && P.AllTidy(s.approvals.requests) && IsPublished(s, r)
    requires x in s.actors && Threatens(s, s.actors[x], r)
    ensures !IsPublished(Run(h, s, steps), r)
  {
    match s.actors[x]
    case Saving(_, _) => steps := SaveOverwrites(h, s, [], s, x, r);
    case Consuming(_, _, _, _, _) => steps := ApproveThenConsume(h, s, x, r);
    case _ => steps := WorkerOverwrites(h, s, x, r);
  }

  // ----- the exact condition -----

  /** Whatever anybody does from state s on, repair r is published. */
  ghost predicate StaysPublished(h: Policy, s: Sys, r: Id) {
    forall states, steps :: Behaviour(h, states, steps) && states[0] == s ==> IsPublished(states[|steps|], r)
  }

  /** A published repair of a reachable state stays published in every continuation exactly when no actor
      of that state threatens it: nobody is drafting, coding or publishing it, nobody is about to store a
      copy in another state, and no consumption under way for it can still succeed. */
  lemma PublishedIsFinalExactly(h: Policy, states: seq<Sys>, steps: seq<Step>, n: nat, r: Id)
    requires GoodDigests(h) && Behaviour(h, states, steps) && states[0] == START && n <= |steps| && IsPublished(states[n], r)
    ensures StaysPublished(h, states[n], r) <==> forall a :: a in states[n].actors ==> !Threatens(states[n], states[n].actors[a], r)
  {
    var s := states[n];
    InvAlong(h, states, steps, n);
    TidyRepair(h, states, steps, n);
    if Calm(s, r) {
      forall more, then' | Behaviour(h, more, then') && more[0] == s
        ensures IsPublished(more[|then'|], r)
      {
        CalmAlong(h, more, then', |then'|, r);
      }
    } else {
      var x :| x in s.actors && Threatens(s, s.actors[x], r);
      var more := ThreatOverwrites(h, s, x, r);
      var trace := RunIsABehaviour(h, s, more);
      assert Behaviour(h, trace, more) && trace[0] == s && !IsPublished(trace[|more|], r);
    }
  }
}
