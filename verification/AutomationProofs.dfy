/** Pinned versions, optimistic revisions, trigger deduplication and the
    concurrency bound, in every interleaving with every task transaction. */
module AutomationProofs {
  import opened Base
  import opened Automations
  import T = Tasks
  import TP = TaskProofs

  // ----- versions -----

  /** Version rows are exactly 1 to the current version, and an enabled template is its newest row. */
  predicate Pinned(s: Sys, id: Id)
    requires id in s.templates
  {
    var t := s.templates[id];
    && t.version >= 0 && t.revision >= 1
    && (t.enabled ==> (id, t.version) in s.versions && s.versions[(id, t.version)] == Version(true, t.config))
  }

  ghost predicate VersionsPinned(s: Sys) {
    && (forall id :: id in s.templates ==> Pinned(s, id))
    && (forall id, v :: (id, v) in s.versions <==> id in s.templates && 1 <= v <= s.templates[id].version)
  }

  /** A run's version row was enabled and its frozen configuration accepted the trigger. */
  ghost predicate Backed(p: Policy, s: Sys, r: Run) {
    && (r.templateId, r.version) in s.versions && s.versions[(r.templateId, r.version)].enabled
    && exists branch :: p.matches(s.versions[(r.templateId, r.version)].config, r.provider, r.event, r.action, branch, r.repository)
  }

  ghost predicate RunsBacked(p: Policy, s: Sys) {
    forall r :: r in s.runs ==> Backed(p, s, s.runs[r]) && s.runs[r].taskId in s.store.tasks
  }

  ghost predicate RunsUnique(s: Sys) {
    && (forall r, q :: r in s.runs && q in s.runs && s.runs[r].taskId == s.runs[q].taskId ==> r == q)
    && (forall id, key, r, q :: IsRun(s, r, id, key) && IsRun(s, q, id, key) ==> r == q)
  }

  ghost predicate Inv(p: Policy, s: Sys) {
    VersionsPinned(s) && RunsBacked(p, s) && RunsUnique(s)
  }

  // ----- what a step may change -----

  /** Templates stay; a template changes only together with its revision, which grows by one. */
  predicate TemplateStep(t: Template, t': Template) {
    t' == t || t'.revision == t.revision + 1
  }

  ghost predicate Grows(s: Sys, s': Sys) {
    && (forall id :: id in s.templates ==> id in s'.templates && TemplateStep(s.templates[id], s'.templates[id]))
    && (forall k :: k in s.versions ==> k in s'.versions && s'.versions[k] == s.versions[k])
    && (forall r :: r in s.runs ==> r in s'.runs && s'.runs[r] == s.runs[r])
  }

  lemma BackedIsStable(p: Policy, s: Sys, s': Sys, r: Run)
    requires Backed(p, s, r)
    requires forall k :: k in s.versions ==> k in s'.versions && s'.versions[k] == s.versions[k]
    ensures Backed(p, s', r)
  {
    var branch :| p.matches(s.versions[(r.templateId, r.version)].config, r.provider, r.event, r.action, branch, r.repository);
  }

  lemma RunsStayBacked(p: Policy, s: Sys, s': Sys)
    requires RunsBacked(p, s) && RunsUnique(s) && s'.runs == s.runs
    requires forall k :: k in s.versions ==> k in s'.versions && s'.versions[k] == s.versions[k]
    requires forall id :: id in s.store.tasks ==> id in s'.store.tasks
    ensures RunsBacked(p, s') && RunsUnique(s')
  {
    forall r | r in s'.runs
      ensures Backed(p, s', s'.runs[r])
    {
      BackedIsStable(p, s, s', s.runs[r]);
    }
    forall id, key, r, q | IsRun(s', r, id, key) && IsRun(s', q, id, key)
      ensures r == q
    {
      assert IsRun(s, r, id, key) && IsRun(s, q, id, key);
    }
  }

  // ----- configuration steps -----

  lemma DraftStep(p: Policy, s: Sys, id: Id, t: Template)
    requires Inv(p, s)
    requires id !in s.templates ==> t.version == 0 && t.revision == 1 && !t.enabled
    requires id in s.templates ==> !t.enabled && t.version == s.templates[id].version && t.revision == s.templates[id].revision + 1
    ensures var s' := s.(templates := s.templates[id := t]); Inv(p, s') && Grows(s, s')
  {
    var s' := s.(templates := s.templates[id := t]);
    assert forall x :: x in s.templates ==> Pinned(s, x);
    RunsStayBacked(p, s, s');
  }

  lemma PublishLockedStep(p: Policy, s: Sys, id: Id, enabled: bool)
    requires Inv(p, s) && id in s.templates
    ensures var (s', r) := PublishLocked(s, id, enabled);
            && Inv(p, s') && Grows(s, s') && r.Ok? && s'.runs == s.runs && s'.store == s.store
            && s'.templates[id].config == s.templates[id].config
  {
    assert Pinned(s, id);
    var s' := PublishLocked(s, id, enabled).0;
    forall x | x in s'.templates
      ensures Pinned(s', x)
    {
      assert Pinned(s, x);
    }
    RunsStayBacked(p, s, s');
  }

  lemma TaskStepKeeps(p: Policy, s: Sys, op: T.Op)
    requires Inv(p, s) && T.Enabled(s.store, op)
    ensures var s' := Apply(p, s, TaskStep(op)); Inv(p, s') && Grows(s, s')
  {
    var s' := Apply(p, s, TaskStep(op));
    TP.EveryStepIsAStoreStep(s.store, op);
    RunsStayBacked(p, s, s');
    assert forall x :: x in s.templates ==> Pinned(s, x);
  }

  /** Adding one backed run with a new task and a new trigger key. */
  lemma AddRun(p: Policy, s: Sys, store': T.Store, runId: Id, run: Run)
    requires Inv(p, s) && runId !in s.runs && Backed(p, s, run) && run.taskId !in s.store.tasks && run.taskId in store'.tasks
    requires !Scheduled(s, run.templateId, run.triggerKey)
    requires forall id :: id in s.store.tasks ==> id in store'.tasks
    ensures var s' := s.(store := store', runs := s.runs[runId := run]); Inv(p, s') && Grows(s, s')
  {
    var s' := s.(store := store', runs := s.runs[runId := run]);
    forall r | r in s'.runs
      ensures Backed(p, s', s'.runs[r])
    {
      BackedIsStable(p, s, s', s'.runs[r]);
    }
    forall id, key, r, q | IsRun(s', r, id, key) && IsRun(s', q, id, key)
      ensures r == q
    {
      if r != runId { assert IsRun(s, r, id, key); }
      if q != runId { assert IsRun(s, q, id, key); }
    }
    assert forall x :: x in s.templates ==> Pinned(s, x);
  }

  lemma ScheduleKeeps(p: Policy, s: Sys, g: Trigger, taskId: Id, runId: Id, dbNow: Time)
    requires Inv(p, s) && g.templateId in s.templates
    requires var t := s.templates[g.templateId];
             t.enabled && p.matches(t.config, g.provider, g.event, g.action, g.branch, g.repository)
    requires !Scheduled(s, g.templateId, g.key)
    ensures var s' := Schedule(p, s, s.templates[g.templateId], g, taskId, runId, dbNow).0; Inv(p, s') && Grows(s, s')
  {
    var t := s.templates[g.templateId];
    var (s', answer) := Schedule(p, s, t, g, taskId, runId, dbNow);
    if answer.Started? {
      var run := RunOf(t, g, taskId);
      assert Backed(p, s, run) by { assert Pinned(s, g.templateId); }
      AddRun(p, s, s'.store, runId, run);
    }
  }

  lemma FireKeeps(p: Policy, s: Sys, g: Trigger, taskId: Id, runId: Id, dbNow: Time)
    requires Inv(p, s)
    ensures var s' := Fire(p, s, g, taskId, runId, dbNow).0; Inv(p, s') && Grows(s, s')
  {
    if g.templateId in s.templates && s.templates[g.templateId].enabled && !Scheduled(s, g.templateId, g.key)
       && p.matches(s.templates[g.templateId].config, g.provider, g.event, g.action, g.branch, g.repository) {
      ScheduleKeeps(p, s, g, taskId, runId, dbNow);
    } else {
      assert Fire(p, s, g, taskId, runId, dbNow).0 == s;
    }
  }

  lemma ConfigStepKeeps(p: Policy, s: Sys, step: Step)
    requires Inv(p, s) && (step.CreateStep? || step.UpdateStep?)
    ensures Inv(p, Apply(p, s, step)) && Grows(s, Apply(p, s, step))
  {
    if step.CreateStep? {
      if Create(p, s, step.config, step.newId).1.Ok? { DraftStep(p, s, step.newId, Template(Stored(step.config), false, 0, 1)); }
    } else {
      var updated := UpdateDraft(p, s, step.id, step.expected, step.config).1;
      if updated.Ok? { DraftStep(p, s, step.id, updated.value); }
    }
  }

  lemma PublishKeeps(p: Policy, s: Sys, id: Id, expected: int)
    requires Inv(p, s)
    ensures Inv(p, Publish(p, s, id, expected).0) && Grows(s, Publish(p, s, id, expected).0)
  {
    if Publish(p, s, id, expected).0 != s { PublishLockedStep(p, s, id, false); }
  }

  lemma SetEnabledKeeps(p: Policy, s: Sys, id: Id, expected: int, enabled: bool)
    requires Inv(p, s)
    ensures Inv(p, SetEnabled(s, id, expected, enabled).0) && Grows(s, SetEnabled(s, id, expected, enabled).0)
  {
    if SetEnabled(s, id, expected, enabled).0 != s { PublishLockedStep(p, s, id, enabled); }
  }

  lemma StepKeeps(p: Policy, s: Sys, step: Step)
    requires Inv(p, s) && Enabled(s, step)
    ensures Inv(p, Apply(p, s, step)) && Grows(s, Apply(p, s, step))
  {
    match step
    case CreateStep(_, _) => ConfigStepKeeps(p, s, step);
    case UpdateStep(_, _, _) => ConfigStepKeeps(p, s, step);
    case PublishStep(id, expected) => PublishKeeps(p, s, id, expected);
    case EnableStep(id, expected, enabled) => SetEnabledKeeps(p, s, id, expected, enabled);
    case TriggerStep(g, taskId, runId, dbNow) => FireKeeps(p, s, g, taskId, runId, dbNow);
    case TaskStep(op) => TaskStepKeeps(p, s, op);
  }

  lemma {:induction false} InvAlong(p: Policy, states: seq<Sys>, steps: seq<Step>, n: nat)
    requires Behaviour(p, states, steps) && states[0] == START && n <= |steps|
    ensures Inv(p, states[n])
  {
    if n > 0 {
      InvAlong(p, states, steps, n - 1);
      assert Next(p, states[n - 1], steps[n - 1], states[n]);
      StepKeeps(p, states[n - 1], steps[n - 1]);
    }
  }
}
