/** What triggers and templates do, read off the columns: which triggers are wanted, what is refused, and what
    a trigger stores. */
module AutomationRules {
  import opened Base
  import opened Automations
  import P = AutomationPolicy
  import TT = AutomationTheorems
  import T = Tasks

  ghost predicate Lists(values: seq<string>, wanted: string) {
    exists i :: 0 <= i < |values| && Trim(values[i]) == Trim(wanted)
  }

  /** The template's provider and one of its repositories, and a filter for this event that lists the action
      and, if it names branches at all, the branch. */
  ghost predicate Wants(c: Config, g: Trigger) {
    && c.provider == g.provider && Lists(c.scope, g.repository)
    && exists i :: 0 <= i < |c.filters| && FilterWants(c.filters[i], g)
  }

  ghost predicate FilterWants(f: Filter, g: Trigger) {
    f.event == g.event && Lists(f.actions, g.action) && (f.branches == [] || Lists(f.branches, g.branch))
  }

  lemma MatchRule(c: Config, g: Trigger)
    ensures Matches(c, g.provider, g.event, g.action, g.branch, g.repository) <==> Wants(c, g)
  {
    forall i | 0 <= i < |c.filters|
      ensures Accepts(c.filters[i], g.event, g.action, g.branch) <==> FilterWants(c.filters[i], g)
    {
    }
  }

  /** A run is active while its task is queued, running or awaiting approval. */
  ghost function Running(s: Sys, id: Id): set<Id> {
    set r | r in s.runs && s.runs[r].templateId == id && s.runs[r].taskId in s.store.tasks && s.store.tasks[s.runs[r].taskId].status in ACTIVE
  }

  const ACTIVE: seq<T.Status> := [T.Queued, T.Running, T.AwaitingApproval]

  lemma RunningRule(s: Sys, id: Id)
    ensures ActiveRuns(s, id) == Running(s, id)
  {
    assert ACTIVE[0] == T.Queued && ACTIVE[1] == T.Running && ACTIVE[2] == T.AwaitingApproval;
  }

  /** The answers of a trigger, in the order in which they are decided. */
  lemma TriggerExactly(p: Policy, s: Sys, g: Trigger, taskId: Id, runId: Id, dbNow: Time)
    requires P.Standard(p)
    ensures var answer := Fire(p, s, g, taskId, runId, dbNow).1;
            if g.templateId !in s.templates then answer == Refused(NotFound)
            else if !s.templates[g.templateId].enabled then answer == Refused(Disabled)
            else if !Wants(s.templates[g.templateId].config, g) then answer == Refused(InvalidTrigger)
            else if exists r :: r in s.runs && s.runs[r].templateId == g.templateId && s.runs[r].triggerKey == g.key then
              answer.Duplicate? && answer.run in s.runs && s.runs[answer.run].templateId == g.templateId
              && s.runs[answer.run].triggerKey == g.key && s.runs[answer.run].taskId == answer.task
            else if |Running(s, g.templateId)| >= s.templates[g.templateId].config.limit then answer == Refused(ConcurrencyLimit)
            else if AllWhite(g.actorId) then answer == Refused(InvalidTrigger)
            else answer == Started(runId, taskId) || answer == Refused(StorageError)
    ensures !Fire(p, s, g, taskId, runId, dbNow).1.Started? ==> Fire(p, s, g, taskId, runId, dbNow).0 == s
  {
    if g.templateId in s.templates {
      MatchRule(s.templates[g.templateId].config, g);
      RunningRule(s, g.templateId);
      assert Blank(g.actorId) <==> AllWhite(g.actorId);
      if exists r :: r in s.runs && s.runs[r].templateId == g.templateId && s.runs[r].triggerKey == g.key {
        var r :| r in s.runs && s.runs[r].templateId == g.templateId && s.runs[r].triggerKey == g.key;
        assert IsRun(s, r, g.templateId, g.key);
      }
    }
  }

  /** What a trigger that starts a task stores: one queued task with the priority and attempts of its kind, and
      one run that names the template's current version. */
  lemma TriggerStores(p: Policy, s: Sys, g: Trigger, taskId: Id, runId: Id, dbNow: Time)
    requires Fire(p, s, g, taskId, runId, dbNow).1.Started?
    ensures var s' := Fire(p, s, g, taskId, runId, dbNow).0;
            && g.templateId in s.templates && s'.templates == s.templates && s'.versions == s.versions
            && s'.runs.Keys == s.runs.Keys + {runId} && s'.store.tasks.Keys == s.store.tasks.Keys + {taskId}
            && var t, template, run := s'.store.tasks[taskId], s.templates[g.templateId], s'.runs[runId];
               (&& t.status == T.Queued && t.attempts == 0 && t.spec.kind == template.config.kind && t.spec.title == p.title(template.config, g)
                && t.spec.repositoryId == g.repositoryId && t.spec.repositoryName == g.repository && t.spec.payload == g.payload
                && t.spec.createdBy == g.actorId && t.spec.createdAt == g.at && t.spec.sourceKey == p.sourceKey(g.templateId, g.key)
                && (t.spec.kind == T.CIDiagnosis ==> t.spec.priority == 60 && t.spec.maxAttempts == 3)
                && (t.spec.kind == T.IssueRepair ==> t.spec.priority == 40 && t.spec.maxAttempts == 5)
                && (t.spec.kind == T.CodeReview ==> t.spec.priority == 50 && t.spec.maxAttempts == 3)
                && run.templateId == g.templateId && run.version == template.version && run.triggerKey == g.key && run.taskId == taskId
                && run.provider == g.provider && run.event == g.event && run.action == g.action && run.repository == g.repository)
  {
    assert Fire(p, s, g, taskId, runId, dbNow) == Schedule(p, s, s.templates[g.templateId], g, taskId, runId, dbNow);
  }

  /** Behind every run stands a trigger that its frozen configuration wants, by the columns. */
  lemma RunsWereWanted(p: Policy, states: seq<Sys>, steps: seq<Step>, n: nat, r: Id) returns (k: nat)
    requires P.Standard(p) && Behaviour(p, states, steps) && states[0] == START && n <= |steps| && r in states[n].runs
    ensures k < n && steps[k].TriggerStep? && steps[k].runId == r && r !in states[k].runs
    ensures var run, g := states[n].runs[r], steps[k].trigger;
            && run.templateId == g.templateId && run.triggerKey == g.key && (run.templateId, run.version) in states[n].versions
            && states[n].versions[(run.templateId, run.version)].enabled && Wants(states[n].versions[(run.templateId, run.version)].config, g)
  {
    k := TT.RunsWereAccepted(p, states, steps, n, r);
    var run := states[n].runs[r];
    MatchRule(states[n].versions[(run.templateId, run.version)].config, steps[k].trigger);
  }

  /** A new template is a disabled draft of revision one without versions, stored with its texts trimmed. */
  lemma CreateStores(p: Policy, s: Sys, c: Config, id: Id)
    requires Create(p, s, c, id).1.Ok?
    ensures var s' := Create(p, s, c, id).0;
            && id !in s.templates && s'.templates.Keys == s.templates.Keys + {id}
            && s'.templates[id] == Template(c.(name := Trim(c.name), description := Trim(c.description), agent := Trim(c.agent)), false, 0, 1)
            && s'.versions == s.versions && s'.runs == s.runs && s'.store == s.store
            && forall x :: x in s.templates ==> s'.templates[x] == s.templates[x] && s.templates[x].config.name != Trim(c.name)
  {
  }
}
