/** Repair phases run one at a time refine the state machine; and what a stale worker
    can still overwrite when they do not. */
module RepairRuns {
  import opened Base
  import opened Repair
  import A = Approvals

  // ----- one phase at a time -----

  /** A path of at most two edges of the repair state machine. */
  ghost predicate ShortPath(from: State, to: State) {
    from == to || CanTransition(from, to) || exists mid :: CanTransition(from, mid) && CanTransition(mid, to)
  }

  lemma TwoEdges(from: State, mid: State, to: State)
    requires CanTransition(from, mid) && CanTransition(mid, to)
    ensures ShortPath(from, to)
  {
  }

  /** How far a lone actor's copy may be ahead of its row. */
  ghost predicate Near(row: State, a: Actor) {
    match a
    case Saving(copy, next) =>
      && ShortPath(row, copy.state) && row != Published
      && (next == ThenDraft ==> copy.state == Planning) && (next == ThenCode ==> copy.state == Patching)
    case Drafting(_) => row == Planning
    case Coding(_) => row == Patching
    case Publishing(_) => row == PatchApproved || row == Failed
    case Consuming(_, phase, _, _, _) => row == Awaiting(phase)
  }

  ghost predicate Lone(s: Sys) {
    && (forall id :: id in s.rows ==> s.rows[id].id == id)
    && (forall a :: a in s.actors ==> s.actors[a].copy.id in s.rows && Near(s.rows[s.actors[a].copy.id].state, s.actors[a]))
    && (forall a, b :: a in s.actors && b in s.actors && s.actors[a].copy.id == s.actors[b].copy.id ==> a == b)
  }

  /** A phase or a consumption starts on a repair only when nothing else works on it. */
  ghost predicate Alone(s: Sys, step: Step) {
    step.ProcessStep? || step.ConsumeStartStep? ==> forall a :: a in s.actors ==> s.actors[a].copy.id != step.repair
  }

  /** The states of rows follow short paths and published rows are final. */
  ghost predicate RowsStep(rows: Rows, rows': Rows) {
    forall id :: id in rows ==>
      id in rows' && ShortPath(rows[id].state, rows'[id].state) && (rows[id].state == Published ==> rows'[id].state == Published)
  }

  lemma DispatchIsNear(row: Row, agent: bool)
    requires Dispatch(row, agent).Some?
    ensures Near(row.state, Dispatch(row, agent).value) && Dispatch(row, agent).value.copy.id == row.id
  {
    TwoEdges(Failed, PlanApproved, Patching);
  }

  lemma PutStaysLone(s: Sys, actor: Id, next: Option<Actor>)
    requires Lone(s)
    requires next.Some? ==> next.value.copy.id in s.rows && Near(s.rows[next.value.copy.id].state, next.value)
    requires next.Some? ==> forall a :: a in s.actors && a != actor ==> s.actors[a].copy.id != next.value.copy.id
    ensures Lone(Put(s, actor, next))
  {
  }

  /** An actor that goes on with the same repair stays alone on it. */
  lemma GoOn(s: Sys, actor: Id, a: Actor)
    requires Lone(s) && actor in s.actors && a.copy.id == s.actors[actor].copy.id && Near(s.rows[a.copy.id].state, a)
    ensures Lone(Put(s, actor, Some(a)))
  {
    PutStaysLone(s, actor, Some(a));
  }

  lemma StartStep(h: Policy, s: Sys, step: Step)
    requires Lone(s) && Alone(s, step) && (step.ProcessStep? || step.ConsumeStartStep?)
    ensures Lone(Apply(h, s, step)) && Apply(h, s, step).rows == s.rows
  {
    if step.repair in s.rows {
      var row := s.rows[step.repair];
      if step.ProcessStep? {
        if Dispatch(row, step.agent).Some? { DispatchIsNear(row, step.agent); }
        PutStaysLone(s, step.actor, Dispatch(row, step.agent));
      } else {
        PutStaysLone(s, step.actor, ConsumeStart(row, step.phase, step.digest, step.key, step.actorId));
      }
    }
  }

  lemma SavedRowState(s: Sys, actor: Id, now: Time)
    requires Lone(s) && actor in s.actors && s.actors[actor].Saving?
    ensures var a := s.actors[actor];
            var rows' := Update(s.rows, a.copy, now);
            && RowsStep(s.rows, rows') && rows'.Keys == s.rows.Keys && rows'[a.copy.id].state == a.copy.state
            && (forall id :: id in s.rows ==> rows'[id].id == id)
            && (forall id :: id in s.rows && id != a.copy.id ==> rows'[id] == s.rows[id])
  {
  }

  lemma SavedStaysLone(s: Sys, actor: Id, rows': Rows, next: Option<Actor>)
    requires Lone(s) && actor in s.actors && rows'.Keys == s.rows.Keys
    requires forall id :: id in s.rows ==> rows'[id].id == id
    requires forall id :: id in s.rows && id != s.actors[actor].copy.id ==> rows'[id] == s.rows[id]
    requires next.Some? ==> next.value.copy.id == s.actors[actor].copy.id && Near(rows'[next.value.copy.id].state, next.value)
    ensures Lone(Put(s.(rows := rows'), actor, next))
  {
  }

  lemma SaveStepAlone(h: Policy, s: Sys, actor: Id, now: Time)
    requires Lone(s) && actor in s.actors && s.actors[actor].Saving?
    ensures var s' := Apply(h, s, SaveStep(actor, now)); Lone(s') && RowsStep(s.rows, s'.rows)
  {
    var a := s.actors[actor];
    SavedRowState(s, actor, now);
    SavedStaysLone(s, actor, Update(s.rows, a.copy, now), AfterSave(a));
  }

  /** An agent's answer never touches a row. */
  lemma AnsweredAlone(s: Sys, actor: Id, answered: (A.Requests, Actor))
    requires Lone(s) && actor in s.actors && answered.1.copy.id == s.actors[actor].copy.id
    requires Near(s.rows[answered.1.copy.id].state, answered.1)
    ensures Lone(AfterAnswer(s, actor, answered)) && AfterAnswer(s, actor, answered).rows == s.rows
  {
    GoOn(s.(approvals := s.approvals.(requests := answered.0)), actor, answered.1);
  }

  lemma DraftStepAlone(h: Policy, s: Sys, step: Step)
    requires Lone(s) && step.DraftStep? && step.actor in s.actors && s.actors[step.actor].Drafting?
    ensures Lone(Apply(h, s, step)) && Apply(h, s, step).rows == s.rows
  {
    var c := s.actors[step.actor].copy;
    var answered := PlanAnswered(h, s.approvals.requests, c, step.plan, step.newId, step.now, step.code);
    assert Apply(h, s, step) == AfterAnswer(s, step.actor, answered);
    AnsweredAlone(s, step.actor, answered);
  }

  lemma CodeStepAlone(h: Policy, s: Sys, step: Step)
    requires Lone(s) && step.CodeStep? && step.actor in s.actors && s.actors[step.actor].Coding?
    ensures Lone(Apply(h, s, step)) && Apply(h, s, step).rows == s.rows
  {
    var c := s.actors[step.actor].copy;
    var answered := PatchAnswered(h, s.approvals.requests, c, step.patch, step.newId, step.now, step.code);
    assert Apply(h, s, step) == AfterAnswer(s, step.actor, answered);
    AnsweredAlone(s, step.actor, answered);
  }

  lemma PublishedIsNear(h: Policy, row: State, c: Row, answer: Publication)
    requires row == PatchApproved || row == Failed
    ensures Near(row, PublishAnswered(h, c, answer).1) && PublishAnswered(h, c, answer).1.copy.id == c.id
  {
    TwoEdges(Failed, PatchApproved, Published);
  }

  lemma PublishStepAlone(h: Policy, s: Sys, actor: Id, answer: Publication)
    requires Lone(s) && actor in s.actors && s.actors[actor].Publishing?
    ensures var s' := Apply(h, s, PublishStep(actor, answer)); Lone(s') && s'.rows == s.rows
  {
    var c := s.actors[actor].copy;
    var answered := PublishAnswered(h, c, answer);
    assert Apply(h, s, PublishStep(actor, answer)) == AfterPublish(s, actor, answered);
    assert Near(s.rows[c.id].state, answered.1) && answered.1.copy.id == c.id by { PublishedIsNear(h, s.rows[c.id].state, c, answer); }
    GoOn(s.(drafts := if answered.0.Some? then s.drafts + [answered.0.value] else s.drafts), actor, answered.1);
  }

  lemma ConsumeStepAlone(h: Policy, s: Sys, actor: Id, now: Time)
    requires Lone(s)
    ensures var s' := Apply(h, s, ConsumeStep(actor, now)); Lone(s') && s'.rows == s.rows
  {
    if actor in s.actors && s.actors[actor].Consuming? {
      var consumed := A.ConsumeChecked(s.approvals.requests, ConsumeInputOf(s.actors[actor], now));
      var next := ConsumeAnswered(s.actors[actor], consumed.result);
      var s1 := s.(approvals := s.approvals.(requests := consumed.requests));
      if next.Some? { GoOn(s1, actor, next.value); } else { PutStaysLone(s1, actor, None); }
    }
  }

  lemma StepAlone(h: Policy, s: Sys, step: Step)
    requires Lone(s) && Alone(s, step)
    ensures Lone(Apply(h, s, step)) && RowsStep(s.rows, Apply(h, s, step).rows)
  {
    match step
    case SaveStep(actor, now) => if actor in s.actors && s.actors[actor].Saving? { SaveStepAlone(h, s, actor, now); }
    case ProcessStep(_, _, _) => StartStep(h, s, step);
    case ConsumeStartStep(_, _, _, _, _, _) => StartStep(h, s, step);
    case DraftStep(actor, _, _, _, _) => if actor in s.actors && s.actors[actor].Drafting? { DraftStepAlone(h, s, step); }
    case CodeStep(actor, _, _, _, _) => if actor in s.actors && s.actors[actor].Coding? { CodeStepAlone(h, s, step); }
    case PublishStep(actor, answer) => if actor in s.actors && s.actors[actor].Publishing? { PublishStepAlone(h, s, actor, answer); }
    case ConsumeStep(actor, now) => ConsumeStepAlone(h, s, actor, now);
    case CrashStep(actor) => PutStaysLone(s, actor, None);
    case CreateStep(_, _, _) =>
    case ApprovalStep(_) =>
  }

  lemma {:induction false} LoneAlong(h: Policy, states: seq<Sys>, steps: seq<Step>, n: nat)
    requires Behaviour(h, states, steps) && states[0] == START && n <= |steps|
    requires forall i :: 0 <= i < n ==> Alone(states[i], steps[i])
    ensures Lone(states[n])
  {
    if n > 0 {
      LoneAlong(h, states, steps, n - 1);
      StepAlone(h, states[n - 1], steps[n - 1]);
    }
  }

  /** With phases run one at a time, crashes included, every stored change of a repair is a path of at
      most two edges of its state machine, and a published repair never changes state again. */
  lemma RepairRefinesStateMachine(h: Policy, states: seq<Sys>, steps: seq<Step>, n: nat)
    requires Behaviour(h, states, steps) && states[0] == START && n < |steps|
    requires forall i :: 0 <= i <= n ==> Alone(states[i], steps[i])
    ensures RowsStep(states[n].rows, states[n + 1].rows)
  {
    LoneAlong(h, states, steps, n);
    StepAlone(h, states[n], steps[n]);
  }

  // ----- without that discipline -----

  /** The step stores a copy of repair r that was not brought to the published state. */
  predicate Overwrites(s: Sys, step: Step, r: Id) {
    && step.SaveStep? && step.actor in s.actors && s.actors[step.actor].Saving?
    && s.actors[step.actor].copy.id == r && s.actors[step.actor].copy.state != Published
  }

  predicate IsPublished(s: Sys, r: Id) {
    r in s.rows && s.rows[r].state == Published
  }

  lemma PublishedStep(h: Policy, s: Sys, step: Step, r: Id)
    requires IsPublished(s, r)
    ensures IsPublished(Apply(h, s, step), r) <==> !Overwrites(s, step, r)
  {
  }

  /** Publishing and then storing the outcome, whatever the row has become meanwhile. */
  lemma PublishThenSave(h: Policy, s: Sys, actor: Id, c: Row, answer: Publication, now: Time)
    requires actor in s.actors && s.actors[actor] == Publishing(c) && c.id in s.rows && PatchRefusal(h, c, Decoded(c)).None?
    ensures var s2 := Apply(h, Apply(h, s, PublishStep(actor, answer)), SaveStep(actor, now));
            && c.id in s2.rows && s2.rows[c.id].state == (if answer.Opened? then Published else Failed)
            && s2.actors == s.actors - {actor}
  {
    var answered := PublishAnswered(h, c, answer);
    var s1 := Apply(h, s, PublishStep(actor, answer));
    assert s1 == AfterPublish(s, actor, answered);
    assert s1.actors[actor] == answered.1;
    var s2 := Apply(h, s1, SaveStep(actor, now));
    assert s2 == Put(s1.(rows := Update(s1.rows, answered.1.copy, now)), actor, None);
  }

  /** Two workers on one publishable repair: the second, whose publication is refused, overwrites the
      published row with a failure, so publication is final only when phases run one at a time. */
  lemma SecondWorkerOverwrites(h: Policy, s: Sys, r: Id, first: Id, second: Id, pr: PullRequest, now: Time)
    requires r in s.rows && s.rows[r].id == r && s.rows[r].state == PatchApproved
    requires PatchRefusal(h, s.rows[r], Decoded(s.rows[r])).None?
    requires first !in s.actors && second !in s.actors && first != second
    ensures var s2 := Apply(h, Apply(h, s, ProcessStep(first, r, true)), ProcessStep(second, r, true));
            var s4 := Apply(h, Apply(h, s2, PublishStep(first, Opened(pr))), SaveStep(first, now));
            var s6 := Apply(h, Apply(h, s4, PublishStep(second, Declined)), SaveStep(second, now));
            && r in s4.rows && s4.rows[r].state == Published
            && r in s6.rows && s6.rows[r].state == Failed
  {
    var c := s.rows[r];
    var s1 := Apply(h, s, ProcessStep(first, r, true));
    assert s1 == s.(actors := s.actors[first := Publishing(c)]);
    var s2 := Apply(h, s1, ProcessStep(second, r, true));
    assert s2 == s1.(actors := s1.actors[second := Publishing(c)]);
    PublishThenSave(h, s2, first, c, Opened(pr), now);
    var s4 := Apply(h, Apply(h, s2, PublishStep(first, Opened(pr))), SaveStep(first, now));
    PublishThenSave(h, s4, second, c, Declined, now);
  }
}
