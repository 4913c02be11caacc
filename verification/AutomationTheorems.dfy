/** The main results about automation templates. */
module AutomationTheorems {
  import opened Base
  import opened Automations
  import opened AutomationProofs
  import T = Tasks
  import TP = TaskProofs

  lemma GrowsAt(p: Policy, states: seq<Sys>, steps: seq<Step>, i: nat)
    requires Behaviour(p, states, steps) && states[0] == START && i < |steps|
    ensures Grows(states[i], states[i + 1])
  {
    InvAlong(p, states, steps, i);
    assert Next(p, states[i], steps[i], states[i + 1]);
    StepKeeps(p, states[i], steps[i]);
  }

  ghost predicate AllGrow(states: seq<Sys>) {
    forall i :: 0 <= i < |states| - 1 ==> Grows(states[i], states[i + 1])
  }

  lemma BehaviourGrows(p: Policy, states: seq<Sys>, steps: seq<Step>)
    requires Behaviour(p, states, steps) && states[0] == START
    ensures AllGrow(states)
  {
    forall i | 0 <= i < |states| - 1
      ensures Grows(states[i], states[i + 1])
    {
      GrowsAt(p, states, steps, i);
    }
  }

  lemma {:induction false} VersionStays(states: seq<Sys>, i: nat, j: nat, k: (Id, int))
    requires AllGrow(states) && i <= j < |states| && k in states[i].versions
    ensures k in states[j].versions && states[j].versions[k] == states[i].versions[k]
    decreases j
  {
    if i < j {
      VersionStays(states, i, j - 1, k);
      assert Grows(states[j - 1], states[j - 1 + 1]);
    }
  }

  lemma {:induction false} RunStays(states: seq<Sys>, i: nat, j: nat, r: Id)
    requires AllGrow(states) && i <= j < |states| && r in states[i].runs
    ensures r in states[j].runs && states[j].runs[r] == states[i].runs[r]
    decreases j
  {
    if i < j {
      RunStays(states, i, j - 1, r);
      assert Grows(states[j - 1], states[j - 1 + 1]);
    }
  }

  // ----- pinned versions -----

  /** Step k is the trigger that stored run r, and the version row the run names was then enabled and
      its configuration accepted exactly that trigger, branch included. */
  ghost predicate AcceptedAt(p: Policy, states: seq<Sys>, steps: seq<Step>, k: int, r: Id) {
    && 0 <= k < |steps| && |states| == |steps| + 1
    && steps[k].TriggerStep? && steps[k].runId == r && r !in states[k].runs && r in states[k + 1].runs
    && var g, run := steps[k].trigger, states[k + 1].runs[r];
       && run.templateId == g.templateId && run.triggerKey == g.key && run.taskId == steps[k].taskId
       && (run.templateId, run.version) in states[k].versions
       && AcceptedBy(p, states[k].versions[(run.templateId, run.version)], g)
  }

  ghost predicate AcceptedBy(p: Policy, v: Version, g: Trigger) {
    v.enabled && p.matches(v.config, g.provider, g.event, g.action, g.branch, g.repository)
  }

  /** What a trigger that stored a run had checked. */
  lemma FireAccepted(p: Policy, s: Sys, g: Trigger, taskId: Id, runId: Id, dbNow: Time, r: Id)
    requires Inv(p, s) && r !in s.runs && r in Fire(p, s, g, taskId, runId, dbNow).0.runs
    ensures var run := Fire(p, s, g, taskId, runId, dbNow).0.runs[r];
            && r == runId && run.templateId == g.templateId && run.triggerKey == g.key && run.taskId == taskId
            && (run.templateId, run.version) in s.versions && AcceptedBy(p, s.versions[(run.templateId, run.version)], g)
  {
    assert Pinned(s, g.templateId);
  }

  lemma OnlyTriggersStoreRuns(p: Policy, s: Sys, step: Step)
    requires Enabled(s, step) && !step.TriggerStep?
    ensures Apply(p, s, step).runs == s.runs
  {
  }

  lemma AcceptedNow(p: Policy, states: seq<Sys>, steps: seq<Step>, k: nat, r: Id)
    requires Behaviour(p, states, steps) && states[0] == START && k < |steps|
    requires r !in states[k].runs && r in states[k + 1].runs
    ensures AcceptedAt(p, states, steps, k, r)
  {
    assert Next(p, states[k], steps[k], states[k + 1]);
    assert Inv(p, states[k]) by { InvAlong(p, states, steps, k); }
    if steps[k].TriggerStep? {
      var TriggerStep(g, taskId, runId, dbNow) := steps[k];
      assert states[k + 1] == Fire(p, states[k], g, taskId, runId, dbNow).0;
      FireAccepted(p, states[k], g, taskId, runId, dbNow, r);
    } else {
      OnlyTriggersStoreRuns(p, states[k], steps[k]);
    }
  }

  /** The trigger behind a run: the step that stored it, whose version row and run are unchanged since. */
  lemma {:induction false} RunsWereAccepted(p: Policy, states: seq<Sys>, steps: seq<Step>, n: nat, r: Id) returns (k: nat)
    requires Behaviour(p, states, steps) && states[0] == START && n <= |steps| && r in states[n].runs
    ensures k < n && AcceptedAt(p, states, steps, k, r)
    ensures var run := states[n].runs[r];
            && run == states[k + 1].runs[r] && (run.templateId, run.version) in states[n].versions
            && AcceptedBy(p, states[n].versions[(run.templateId, run.version)], steps[k].trigger)
    decreases n
  {
    if r in states[n - 1].runs {
      k := RunsWereAccepted(p, states, steps, n - 1, r);
    } else {
      AcceptedNow(p, states, steps, n - 1, r);
      k := n - 1;
    }
    BehaviourGrows(p, states, steps);
    assert Grows(states[n - 1], states[n - 1 + 1]);
  }

  ghost predicate AllAccepted(p: Policy, states: seq<Sys>, steps: seq<Step>, n: nat)
    requires n < |states|
  {
    forall r :: r in states[n].runs ==> exists k :: 0 <= k < n && AcceptedAt(p, states, steps, k, r)
  }

  /** At every point, version rows are exactly 1 to the current version; an enabled template's
      configuration is its newest row; every run was stored by a trigger that the frozen configuration it
      names accepted, branch included; and no row or run ever changes afterwards. */
  lemma PinnedVersions(p: Policy, states: seq<Sys>, steps: seq<Step>, i: nat, j: nat)
    requires Behaviour(p, states, steps) && states[0] == START && i <= j <= |steps|
    ensures VersionsPinned(states[i]) && RunsBacked(p, states[i]) && AllAccepted(p, states, steps, i)
    ensures forall k :: k in states[i].versions ==> k in states[j].versions && states[j].versions[k] == states[i].versions[k]
    ensures forall r :: r in states[i].runs ==> r in states[j].runs && states[j].runs[r] == states[i].runs[r]
  {
    InvAlong(p, states, steps, i);
    BehaviourGrows(p, states, steps);
    forall r | r in states[i].runs
      ensures exists k :: 0 <= k < i && AcceptedAt(p, states, steps, k, r)
    {
      var k := RunsWereAccepted(p, states, steps, i, r);
    }
    forall k | k in states[i].versions
      ensures k in states[j].versions && states[j].versions[k] == states[i].versions[k]
    {
      VersionStays(states, i, j, k);
    }
    forall r | r in states[i].runs
      ensures r in states[j].runs && states[j].runs[r] == states[i].runs[r]
    {
      RunStays(states, i, j, r);
    }
  }

  // ----- optimistic revisions -----

  /** Revisions never go back, and the same revision means the same template. */
  lemma RevisionsNeverRepeat(p: Policy, states: seq<Sys>, steps: seq<Step>, i: nat, j: nat, id: Id)
    requires Behaviour(p, states, steps) && states[0] == START && i <= j <= |steps| && id in states[i].templates
    ensures id in states[j].templates && states[i].templates[id].revision <= states[j].templates[id].revision
    ensures states[i].templates[id].revision == states[j].templates[id].revision ==> states[i].templates[id] == states[j].templates[id]
  {
    BehaviourGrows(p, states, steps);
    RevisionsGrow(states, i, j, id);
  }

  lemma {:induction false} RevisionsGrow(states: seq<Sys>, i: nat, j: nat, id: Id)
    requires AllGrow(states) && i <= j < |states| && id in states[i].templates
    ensures id in states[j].templates && states[i].templates[id].revision <= states[j].templates[id].revision
    ensures states[i].templates[id].revision == states[j].templates[id].revision ==> states[i].templates[id] == states[j].templates[id]
    decreases j
  {
    if i < j {
      RevisionsGrow(states, i, j - 1, id);
      assert Grows(states[j - 1], states[j - 1 + 1]);
    }
  }

  predicate Mutates(step: Step, id: Id, expected: int) {
    match step
    case UpdateStep(x, e, _) => x == id && e == expected
    case PublishStep(x, e) => x == id && e == expected
    case EnableStep(x, e, _) => x == id && e == expected
    case _ => false
  }

  lemma EffectNeedsRevision(p: Policy, s: Sys, step: Step, id: Id, expected: int)
    requires Mutates(step, id, expected) && expected > 0 && Apply(p, s, step) != s
    ensures id in s.templates && s.templates[id].revision == expected
  {
  }

  /** No lost update: an update, publish or enable sent with a positive expected revision, read at state
      i, takes effect at step j only if the template is still exactly what was read. */
  lemma NoLostUpdate(p: Policy, states: seq<Sys>, steps: seq<Step>, i: nat, j: nat, id: Id)
    requires Behaviour(p, states, steps) && states[0] == START && i <= j < |steps| && id in states[i].templates
    requires states[i].templates[id].revision > 0 && Mutates(steps[j], id, states[i].templates[id].revision)
    requires states[j + 1] != states[j]
    ensures id in states[j].templates && states[j].templates[id] == states[i].templates[id]
  {
    assert Next(p, states[j], steps[j], states[j + 1]);
    RevisionsNeverRepeat(p, states, steps, i, j, id);
    EffectNeedsRevision(p, states[j], steps[j], id, states[i].templates[id].revision);
  }

  // ----- trigger deduplication -----

  /** At most one run, and so one task, per template and trigger key; and redelivering a trigger to a
      template that is still enabled and still matches returns that run and task and changes nothing. */
  lemma NoDoubleTrigger(p: Policy, states: seq<Sys>, steps: seq<Step>, i: nat, j: nat, r: Id, g: Trigger, taskId: Id, runId: Id, dbNow: Time)
    requires Behaviour(p, states, steps) && states[0] == START && i <= j <= |steps|
    requires IsRun(states[i], r, g.templateId, g.key)
    ensures forall q :: IsRun(states[j], q, g.templateId, g.key) ==> q == r
    ensures var s := states[j];
            g.templateId in s.templates && s.templates[g.templateId].enabled
              && p.matches(s.templates[g.templateId].config, g.provider, g.event, g.action, g.branch, g.repository)
            ==> Fire(p, s, g, taskId, runId, dbNow) == (s, Duplicate(r, states[i].runs[r].taskId))
  {
    BehaviourGrows(p, states, steps);
    RunStays(states, i, j, r);
    InvAlong(p, states, steps, j);
    assert IsRun(states[j], r, g.templateId, g.key);
  }

  // ----- concurrency -----

  /** The largest limit the template has had up to state n. */
  ghost function PeakLimit(states: seq<Sys>, n: nat, id: Id): int
    requires n < |states|
  {
    var here := if id in states[n].templates then states[n].templates[id].config.limit else 0;
    if n == 0 then here else var before := PeakLimit(states, n - 1, id); if here > before then here else before
  }

  /** The runs of a template whose task a step takes from inactive back to active. */
  ghost function Reactivated(s: Sys, s': Sys, id: Id): set<Id> {
    set r | r in s.runs && ActiveRun(s', id, r) && !ActiveRun(s, id, r)
  }

  ghost function Reactivations(states: seq<Sys>, n: nat, id: Id): nat
    requires n < |states|
  {
    if n == 0 then 0
    else Reactivations(states, n - 1, id) + (if Reactivated(states[n - 1], states[n], id) == {} then 0 else 1)
  }

  predicate Inactive(status: T.Status) { !ActiveStatus(status) }

  /** Only retrying or claiming re-activates, and each touches one task that had failed or was cancelled. */
  lemma OneTaskReactivates(store: T.Store, op: T.Op, x: Id, y: Id)
    requires T.Enabled(store, op) && x in store.tasks && y in store.tasks
    requires var store' := T.Apply(store, op);
             && x in store'.tasks && Inactive(store.tasks[x].status) && ActiveStatus(store'.tasks[x].status)
             && y in store'.tasks && Inactive(store.tasks[y].status) && ActiveStatus(store'.tasks[y].status)
    ensures x == y
    ensures store.tasks[x].status == T.Failed || store.tasks[x].status == T.Cancelled
    ensures T.Apply(store, op).tasks[x].status == T.Queued || T.Apply(store, op).tasks[x].status == T.Running
  {
    Touched(store, op, x);
    Touched(store, op, y);
  }

  /** The one task a step may re-activate. */
  ghost function Target(op: T.Op): Option<Id> {
    match op
    case Retry(id, _, _) => Some(id)
    case Claim(_, _, _, _, _, _, _, pick) => pick
    case _ => None
  }

  lemma Touched(store: T.Store, op: T.Op, x: Id)
    requires T.Enabled(store, op) && x in store.tasks && x in T.Apply(store, op).tasks
    requires Inactive(store.tasks[x].status) && ActiveStatus(T.Apply(store, op).tasks[x].status)
    ensures Target(op) == Some(x)
    ensures store.tasks[x].status == T.Failed || store.tasks[x].status == T.Cancelled
    ensures T.Apply(store, op).tasks[x].status == T.Queued || T.Apply(store, op).tasks[x].status == T.Running
  {
    assert TP.RowStep(store.tasks[x], T.Apply(store, op).tasks[x]) by { TP.EveryStepIsAStoreStep(store, op); }
    if Target(op) != Some(x) { OtherTasksStayInactive(store, op, x); }
  }

  lemma OtherTasksStayInactive(store: T.Store, op: T.Op, x: Id)
    requires T.Enabled(store, op) && x in store.tasks && Target(op) != Some(x) && Inactive(store.tasks[x].status)
    ensures x in T.Apply(store, op).tasks && Inactive(T.Apply(store, op).tasks[x].status)
  {
    match op
    case Complete(id, runId, status, code, message, now) => CompleteStaysInactive(store, id, runId, status, code, message, now, x);
    case _ =>
  }

  lemma CompleteStaysInactive(store: T.Store, id: Id, runId: Id, status: T.Status, code: string, message: string, now: Time, x: Id)
    requires x in store.tasks && Inactive(store.tasks[x].status)
    ensures var store' := T.CompleteTask(store, id, runId, status, code, message, now).store;
            x in store'.tasks && Inactive(store'.tasks[x].status)
  {
  }

  lemma AtMostOneReactivated(p: Policy, s: Sys, op: T.Op, id: Id)
    requires Inv(p, s) && T.Enabled(s.store, op)
    ensures |Reactivated(s, Apply(p, s, TaskStep(op)), id)| <= 1
  {
    var s' := Apply(p, s, TaskStep(op));
    var again := Reactivated(s, s', id);
    forall r, q | r in again && q in again
      ensures r == q
    {
      OneTaskReactivates(s.store, op, s.runs[r].taskId, s.runs[q].taskId);
    }
    if again != {} {
      var r :| r in again;
      assert again == {r};
    }
  }

  lemma SubsetSize<X>(a: set<X>, b: set<X>)
    requires a <= b
    ensures |a| <= |b|
  {
    assert b == a + (b - a);
  }

  lemma TaskStepActive(p: Policy, s: Sys, op: T.Op, id: Id)
    requires Inv(p, s) && T.Enabled(s.store, op)
    ensures var s' := Apply(p, s, TaskStep(op));
            |ActiveRuns(s', id)| <= |ActiveRuns(s, id)| + (if Reactivated(s, s', id) == {} then 0 else 1)
  {
    var s' := Apply(p, s, TaskStep(op));
    AtMostOneReactivated(p, s, op, id);
    SubsetSize(ActiveRuns(s', id), ActiveRuns(s, id) + Reactivated(s, s', id));
  }

  lemma AddedRunActive(s: Sys, s': Sys, runId: Id, id: Id)
    requires runId !in s.runs && s'.runs.Keys == s.runs.Keys + {runId}
    requires forall r :: r in s.runs ==> s'.runs[r] == s.runs[r] && s.runs[r].taskId in s.store.tasks
    requires forall x :: x in s.store.tasks ==> x in s'.store.tasks && s'.store.tasks[x] == s.store.tasks[x]
    ensures ActiveRuns(s', id) <= ActiveRuns(s, id) + (if s'.runs[runId].templateId == id then {runId} else {})
  {
    forall r | r in ActiveRuns(s', id) && r != runId
      ensures r in ActiveRuns(s, id)
    {
    }
  }

  /** What a trigger that starts a task has checked and done. */
  lemma FireStarted(p: Policy, s: Sys, g: Trigger, taskId: Id, runId: Id, dbNow: Time)
    requires Fire(p, s, g, taskId, runId, dbNow).1.Started?
    ensures var s' := Fire(p, s, g, taskId, runId, dbNow).0;
            && g.templateId in s.templates && |ActiveRuns(s, g.templateId)| < s.templates[g.templateId].config.limit
            && runId !in s.runs && s'.runs == s.runs[runId := RunOf(s.templates[g.templateId], g, taskId)]
            && taskId !in s.store.tasks && taskId in s'.store.tasks && s'.store.tasks == s.store.tasks[taskId := s'.store.tasks[taskId]]
  {
    assert Fire(p, s, g, taskId, runId, dbNow) == Schedule(p, s, s.templates[g.templateId], g, taskId, runId, dbNow);
  }

  lemma FireActive(p: Policy, s: Sys, g: Trigger, taskId: Id, runId: Id, dbNow: Time, id: Id)
    requires Inv(p, s)
    ensures var s' := Fire(p, s, g, taskId, runId, dbNow).0;
            |ActiveRuns(s', id)| <= |ActiveRuns(s, id)|
            || (id in s.templates && |ActiveRuns(s', id)| <= s.templates[id].config.limit)
  {
    if Fire(p, s, g, taskId, runId, dbNow).1.Started? {
      FireStarted(p, s, g, taskId, runId, dbNow);
      StartedActive(s, Fire(p, s, g, taskId, runId, dbNow).0, g, taskId, runId, id);
    }
  }

  lemma StartedActive(s: Sys, s': Sys, g: Trigger, taskId: Id, runId: Id, id: Id)
    requires g.templateId in s.templates && |ActiveRuns(s, g.templateId)| < s.templates[g.templateId].config.limit
    requires forall r :: r in s.runs ==> s.runs[r].taskId in s.store.tasks
    requires runId !in s.runs && s'.runs == s.runs[runId := RunOf(s.templates[g.templateId], g, taskId)]
    requires taskId !in s.store.tasks && taskId in s'.store.tasks && s'.store.tasks == s.store.tasks[taskId := s'.store.tasks[taskId]]
    ensures |ActiveRuns(s', id)| <= |ActiveRuns(s, id)|
         || (id in s.templates && |ActiveRuns(s', id)| <= s.templates[id].config.limit)
  {
    var added := if g.templateId == id then {runId} else {};
    assert ActiveRuns(s', id) <= ActiveRuns(s, id) + added by { AddedRunActive(s, s', runId, id); }
    SubsetSize(ActiveRuns(s', id), ActiveRuns(s, id) + added);
  }

  lemma ConfigActive(p: Policy, s: Sys, step: Step, id: Id)
    requires Enabled(s, step) && !step.TriggerStep? && !step.TaskStep?
    ensures ActiveRuns(Apply(p, s, step), id) == ActiveRuns(s, id)
  {
    assert Apply(p, s, step).runs == s.runs && Apply(p, s, step).store == s.store;
  }

  lemma StepActive(p: Policy, s: Sys, step: Step, id: Id)
    requires Inv(p, s) && Enabled(s, step)
    ensures var s' := Apply(p, s, step);
            |ActiveRuns(s', id)| <= |ActiveRuns(s, id)| + (if Reactivated(s, s', id) == {} then 0 else 1)
            || (id in s.templates && |ActiveRuns(s', id)| <= s.templates[id].config.limit)
  {
    match step
    case TaskStep(op) => TaskStepActive(p, s, op, id);
    case TriggerStep(g, taskId, runId, dbNow) => FireActive(p, s, g, taskId, runId, dbNow, id);
    case _ => ConfigActive(p, s, step, id);
  }

  /** At every point of every behaviour, a template's active tasks number at most the largest limit it has
      had plus the number of steps so far that took a failed or cancelled task of it back to work. */
  lemma {:induction false} ConcurrencyBound(p: Policy, states: seq<Sys>, steps: seq<Step>, n: nat, id: Id)
    requires Behaviour(p, states, steps) && states[0] == START && n <= |steps|
    ensures |ActiveRuns(states[n], id)| <= PeakLimit(states, n, id) + Reactivations(states, n, id)
  {
    if n == 0 {
      assert ActiveRuns(states[0], id) == {};
    } else {
      ConcurrencyBound(p, states, steps, n - 1, id);
      assert Inv(p, states[n - 1]) by { InvAlong(p, states, steps, n - 1); }
      assert Next(p, states[n - 1], steps[n - 1], states[n]);
      StepActive(p, states[n - 1], steps[n - 1], id);
      assert PeakLimit(states, n, id) >= PeakLimit(states, n - 1, id);
    }
  }

  /** With no re-activation the limit is never exceeded. */
  lemma LimitHoldsWithoutReactivation(p: Policy, states: seq<Sys>, steps: seq<Step>, n: nat, id: Id)
    requires Behaviour(p, states, steps) && states[0] == START && n <= |steps|
    requires forall i :: 0 < i <= n ==> Reactivated(states[i - 1], states[i], id) == {}
    ensures |ActiveRuns(states[n], id)| <= PeakLimit(states, n, id)
  {
    ConcurrencyBound(p, states, steps, n, id);
    NoReactivations(states, n, id);
  }

  lemma {:induction false} NoReactivations(states: seq<Sys>, n: nat, id: Id)
    requires n < |states| && forall i :: 0 < i <= n ==> Reactivated(states[i - 1], states[i], id) == {}
    ensures Reactivations(states, n, id) == 0
  {
    if n > 0 { NoReactivations(states, n - 1, id); }
  }
}
