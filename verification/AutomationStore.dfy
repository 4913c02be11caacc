/** The automation store as an object whose rows change in place; each method is proved to
    be a step of module Automations. */
module AutomationStore {
  import opened Base
  import S = TaskStore
  import T = Tasks
  import opened Automations

  class PostgreSQLStore {
    var templates: map<Id, Template>
    var versions: map<(Id, int), Version>
    var runs: map<Id, Run>
    const tasks: S.PostgreSQLStore

    ghost function State(): Sys
      reads this, tasks
    {
      Sys(templates, versions, runs, tasks.State())
    }

    constructor (tasks: S.PostgreSQLStore)
      ensures this.tasks == tasks && State() == Sys(map[], map[], map[], tasks.State())
    {
      this.tasks := tasks;
      templates, versions, runs := map[], map[], map[];
    }

    method Create(p: Policy, config: Config, newId: Id) returns (r: Result<Template, Error>)
      modifies this
      ensures (State(), r) == Automations.Create(p, old(State()), config, newId)
      ensures State() == Apply(p, old(State()), CreateStep(config, newId))
    {
      if !p.ok(config) {
        return Err(Validation);
      }
      var name := Stored(config).name;
      if newId == "" || newId in templates || exists x :: x in templates && x != newId && templates[x].config.name == name {
        return Err(StorageError);
      }
      templates := templates[newId := Template(Stored(config), false, 0, 1)];
      return Ok(templates[newId]);
    }

    method UpdateDraft(p: Policy, id: Id, expected: int, config: Config) returns (r: Result<Template, Error>)
      modifies this
      ensures (State(), r) == Automations.UpdateDraft(p, old(State()), id, expected, config)
      ensures State() == Apply(p, old(State()), UpdateStep(id, expected, config))
    {
      if !p.ok(config) {
        return Err(Validation);
      }
      if expected <= 0 {
        return Err(Conflict);
      }
      if id !in templates {
        return Err(NotFound);
      }
      var template := templates[id];
      if template.revision != expected {
        return Err(Conflict);
      }
      if template.enabled {
        return Err(ErrPublished);
      }
      var name := Stored(config).name;
      if exists x :: x in templates && x != id && templates[x].config.name == name {
        return Err(StorageError);
      }
      templates := templates[id := template.(config := Stored(config), revision := template.revision + 1)];
      return Ok(templates[id]);
    }

    method LockTemplate(id: Id, expected: int) returns (r: Result<Template, Error>)
      ensures r == match Lock(State(), id, expected) case Some(e) => Err(e) case None => Ok(templates[id])
    {
      if id !in templates {
        return Err(NotFound);
      }
      if expected > 0 && templates[id].revision != expected {
        return Err(Conflict);
      }
      return Ok(templates[id]);
    }

    method PublishLocked(id: Id, enabled: bool) returns (r: Result<Template, Error>)
      requires id in templates
      modifies this
      ensures (State(), r) == Automations.PublishLocked(old(State()), id, enabled)
    {
      var template := templates[id];
      var version := template.version + 1;
      if (id, version) in versions {
        return Err(StorageError);
      }
      versions := versions[(id, version) := Version(enabled, template.config)];
      templates := templates[id := template.(enabled := enabled, version := version, revision := template.revision + 1)];
      return Ok(templates[id]);
    }

    method Publish(p: Policy, id: Id, expected: int) returns (r: Result<Template, Error>)
      modifies this
      ensures (State(), r) == Automations.Publish(p, old(State()), id, expected)
      ensures State() == Apply(p, old(State()), PublishStep(id, expected))
    {
      r := LockTemplate(id, expected);
      if r.Err? {
        return;
      }
      var template := r.value;
      if template.version > 0 && template.enabled {
        return Err(ErrPublished);
      }
      if !p.ok(template.config) {
        return Err(Validation);
      }
      r := PublishLocked(id, false);
    }

    method SetEnabled(id: Id, expected: int, enabled: bool) returns (r: Result<Template, Error>)
      modifies this
      ensures (State(), r) == Automations.SetEnabled(old(State()), id, expected, enabled)
      ensures forall p :: State() == Apply(p, old(State()), EnableStep(id, expected, enabled))
    {
      r := LockTemplate(id, expected);
      if r.Err? {
        return;
      }
      if r.value.version == 0 {
        return Err(Validation);
      }
      if r.value.enabled == enabled {
        return;
      }
      r := PublishLocked(id, enabled);
    }

    method FindRun(id: Id, key: string) returns (run: Option<Id>)
      ensures run.Some? ==> IsRun(State(), run.value, id, key)
      ensures run.None? ==> !Scheduled(State(), id, key)
    {
      run := None;
      var todo := runs.Keys;
      while todo != {}
        invariant todo <= runs.Keys && run.None?
        invariant forall r :: IsRun(State(), r, id, key) ==> r in todo
        decreases todo
      {
        var r :| r in todo;
        if runs[r].templateId == id && runs[r].triggerKey == key {
          return Some(r);
        }
        todo := todo - {r};
      }
    }

    method CountActive(id: Id) returns (n: nat)
      ensures n == |ActiveRuns(State(), id)|
    {
      n := 0;
      var todo := runs.Keys;
      ghost var seen: set<Id> := {};
      while todo != {}
        invariant todo <= runs.Keys && n == |seen|
        invariant forall r :: r in seen <==> ActiveRun(State(), id, r) && r !in todo
        decreases todo
      {
        var r :| r in todo;
        var run := runs[r];
        if run.templateId == id && run.taskId in tasks.tasks
          && (tasks.tasks[run.taskId].status == T.Queued || tasks.tasks[run.taskId].status == T.Running
              || tasks.tasks[run.taskId].status == T.AwaitingApproval) {
          n, seen := n + 1, seen + {r};
        }
        todo := todo - {r};
      }
      assert seen == ActiveRuns(State(), id);
    }

    /** Both inserts or neither. */
    method InsertRun(p: Policy, template: Template, g: Trigger, taskId: Id, runId: Id, dbNow: Time) returns (answer: Answer)
      modifies this, tasks
      ensures (State(), answer) == Schedule(p, old(State()), template, g, taskId, runId, dbNow)
    {
      var saved := tasks.tasks;
      var inserted := tasks.InsertTask(TaskSpecOf(p, template.config, g), taskId, dbNow);
      if inserted.Err? {
        return Refused(StorageError);
      }
      if runId == "" || runId in runs {
        tasks.tasks := saved;
        return Refused(StorageError);
      }
      runs := runs[runId := RunOf(template, g, taskId)];
      return Started(runId, taskId);
    }

    method Trigger(p: Policy, g: Trigger, taskId: Id, runId: Id, dbNow: Time) returns (answer: Answer)
      modifies this, tasks
      ensures State() == Fire(p, old(State()), g, taskId, runId, dbNow).0
      ensures State() == Apply(p, old(State()), TriggerStep(g, taskId, runId, dbNow))
      ensures !answer.Duplicate? ==> answer == Fire(p, old(State()), g, taskId, runId, dbNow).1
      ensures answer.Duplicate? ==> Fire(p, old(State()), g, taskId, runId, dbNow).1.Duplicate?
      ensures answer.Duplicate? ==> IsRun(State(), answer.run, g.templateId, g.key) && runs[answer.run].taskId == answer.task
    {
      if g.templateId !in templates {
        return Refused(NotFound);
      }
      var template := templates[g.templateId];
      if !template.enabled {
        return Refused(Disabled);
      }
      if !p.matches(template.config, g.provider, g.event, g.action, g.branch, g.repository) {
        return Refused(InvalidTrigger);
      }
      var run := FindRun(g.templateId, g.key);
      if run.Some? {
        return Duplicate(run.value, runs[run.value].taskId);
      }
      var active := CountActive(g.templateId);
      if active >= template.config.limit {
        return Refused(ConcurrencyLimit);
      }
      if Blank(g.actorId) {
        return Refused(InvalidTrigger);
      }
      answer := InsertRun(p, template, g, taskId, runId, dbNow);
    }
  }
}
