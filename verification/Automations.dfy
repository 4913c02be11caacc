/** Automation templates: versioned configuration under optimistic revisions,
    trigger deduplication and a concurrency limit, on top of the task queue. */
module Automations {
  import opened Base
  import T = Tasks

  datatype Filter = Filter(event: string, actions: seq<string>, branches: seq<string>)

  datatype Config = Config(
    name: string, description: string, kind: T.Kind, provider: string, scope: seq<string>, filters: seq<Filter>,
    agent: string, budget: int, timeout: int, limit: int, risk: string, approval: string)

  datatype Template = Template(config: Config, enabled: bool, version: int, revision: int)

  /** A frozen configuration; the row is keyed by template and version. */
  datatype Version = Version(enabled: bool, config: Config)

  datatype Run = Run(
    templateId: Id, version: int, triggerKey: string, provider: string, event: string, action: string,
    repository: string, taskId: Id)

  datatype Sys = Sys(templates: map<Id, Template>, versions: map<(Id, int), Version>, runs: map<Id, Run>, store: T.Store)

  const START := Sys(map[], map[], map[], T.EMPTY)

  /** The configuration check, the match of a configuration with a trigger, the source key of a trigger
      (which hashes the trigger key), and the title of its task. */
  datatype Policy = Policy(
    ok: Config -> bool, matches: (Config, string, string, string, string, string) -> bool,
    sourceKey: (Id, string) -> string, title: (Config, Trigger) -> string)

  datatype Trigger = Trigger(
    templateId: Id, key: string, provider: string, event: string, action: string, branch: string, repository: string,
    repositoryId: string, title: string, payload: T.Payload, actorId: Id, at: Time)

  datatype Error =
    | NotFound | Validation | Conflict | ErrPublished | Disabled | InvalidTrigger | ConcurrencyLimit | StorageError

  // ----- matching (types.go) -----

  predicate Has(values: seq<string>, wanted: string) {
    exists i :: 0 <= i < |values| && Trim(values[i]) == Trim(wanted)
  }

  predicate Accepts(f: Filter, event: string, action: string, branch: string) {
    f.event == event && Has(f.actions, action) && (|f.branches| == 0 || Has(f.branches, branch))
  }

  predicate Matches(c: Config, provider: string, event: string, action: string, branch: string, repository: string) {
    && provider == c.provider && Has(c.scope, repository)
    && exists i :: 0 <= i < |c.filters| && Accepts(c.filters[i], event, action, branch)
  }

  // ----- configuration (store.go) -----

  /** The stored form of a configuration. */
  function Stored(c: Config): Config {
    c.(name := Trim(c.name), description := Trim(c.description), agent := Trim(c.agent))
  }

  ghost predicate NameTaken(s: Sys, id: Id, name: string) {
    exists x :: x in s.templates && x != id && s.templates[x].config.name == name
  }

  ghost function Create(p: Policy, s: Sys, c: Config, id: Id): (Sys, Result<Template, Error>) {
    if !p.ok(c) then (s, Err(Validation))
    else if id == "" || id in s.templates || NameTaken(s, id, Stored(c).name) then (s, Err(StorageError))
    else
      var t := Template(Stored(c), false, 0, 1);
      (s.(templates := s.templates[id := t]), Ok(t))
  }

  ghost function UpdateDraft(p: Policy, s: Sys, id: Id, expected: int, c: Config): (Sys, Result<Template, Error>) {
    if !p.ok(c) then (s, Err(Validation))
    else if expected <= 0 then (s, Err(Conflict))
    else if id !in s.templates then (s, Err(NotFound))
    else if s.templates[id].revision != expected then (s, Err(Conflict))
    else if s.templates[id].enabled then (s, Err(ErrPublished))
    else if NameTaken(s, id, Stored(c).name) then (s, Err(StorageError))
    else
      var t := s.templates[id].(config := Stored(c), revision := s.templates[id].revision + 1);
      (s.(templates := s.templates[id := t]), Ok(t))
  }

  /** lockTemplate: a revision that is not positive is not compared. */
  function Lock(s: Sys, id: Id, expected: int): Option<Error> {
    if id !in s.templates then Some(NotFound)
    else if expected > 0 && s.templates[id].revision != expected then Some(Conflict)
    else None
  }

  /** publishLocked: a new version row freezes the current configuration. */
  function PublishLocked(s: Sys, id: Id, enabled: bool): (Sys, Result<Template, Error>)
    requires id in s.templates
  {
    var t := s.templates[id].(enabled := enabled, version := s.templates[id].version + 1, revision := s.templates[id].revision + 1);
    if (id, t.version) in s.versions then (s, Err(StorageError))
    else (s.(templates := s.templates[id := t], versions := s.versions[(id, t.version) := Version(enabled, t.config)]), Ok(t))
  }

  function Publish(p: Policy, s: Sys, id: Id, expected: int): (Sys, Result<Template, Error>) {
    if Lock(s, id, expected).Some? then (s, Err(Lock(s, id, expected).value))
    else if s.templates[id].version > 0 && s.templates[id].enabled then (s, Err(ErrPublished))
    else if !p.ok(s.templates[id].config) then (s, Err(Validation))
    else PublishLocked(s, id, false)
  }

  function SetEnabled(s: Sys, id: Id, expected: int, enabled: bool): (Sys, Result<Template, Error>) {
    if Lock(s, id, expected).Some? then (s, Err(Lock(s, id, expected).value))
    else if s.templates[id].version == 0 then (s, Err(Validation))
    else if s.templates[id].enabled == enabled then (s, Ok(s.templates[id]))
    else PublishLocked(s, id, enabled)
  }

  // ----- triggering -----

  predicate IsRun(s: Sys, r: Id, id: Id, key: string) {
    r in s.runs && s.runs[r].templateId == id && s.runs[r].triggerKey == key
  }

  ghost predicate Scheduled(s: Sys, id: Id, key: string) {
    exists r :: IsRun(s, r, id, key)
  }

  predicate ActiveStatus(status: T.Status) {
    status == T.Queued || status == T.Running || status == T.AwaitingApproval
  }

  predicate ActiveRun(s: Sys, id: Id, r: Id) {
    && r in s.runs && s.runs[r].templateId == id
    && s.runs[r].taskId in s.store.tasks && ActiveStatus(s.store.tasks[s.runs[r].taskId].status)
  }

  /** SELECT count(*) over the runs of a template whose task is active. */
  function ActiveRuns(s: Sys, id: Id): set<Id> {
    set r | r in s.runs && ActiveRun(s, id, r)
  }

  function PriorityFor(kind: T.Kind): int {
    match kind
    case CIDiagnosis => 60
    case IssueRepair => 40
    case _ => 50
  }

  function TaskSpecOf(p: Policy, c: Config, g: Trigger): T.TaskSpec {
    T.TaskSpec(c.kind, p.title(c, g), g.repositoryId, g.repository,
               p.sourceKey(g.templateId, g.key), g.payload, PriorityFor(c.kind), if c.kind == T.IssueRepair then 5 else 3,
               g.actorId, g.at)
  }

  function RunOf(t: Template, g: Trigger, taskId: Id): Run {
    Run(g.templateId, t.version, g.key, g.provider, g.event, g.action, g.repository, taskId)
  }

  /** A refusal, the run already scheduled for this key, or the new run. */
  datatype Answer = Refused(error: Error) | Duplicate(run: Id, task: Id) | Started(run: Id, task: Id)

  ghost function Fire(p: Policy, s: Sys, g: Trigger, taskId: Id, runId: Id, dbNow: Time): (Sys, Answer) {
    if g.templateId !in s.templates then (s, Refused(NotFound))
    else
      var t := s.templates[g.templateId];
      if !t.enabled then (s, Refused(Disabled))
      else if !p.matches(t.config, g.provider, g.event, g.action, g.branch, g.repository) then (s, Refused(InvalidTrigger))
      else if Scheduled(s, g.templateId, g.key) then
        var r :| IsRun(s, r, g.templateId, g.key);
        (s, Duplicate(r, s.runs[r].taskId))
      else if |ActiveRuns(s, g.templateId)| >= t.config.limit then (s, Refused(ConcurrencyLimit))
      else if Blank(g.actorId) then (s, Refused(InvalidTrigger))
      else Schedule(p, s, t, g, taskId, runId, dbNow)
  }

  /** The two inserts of a new trigger, in one transaction. */
  ghost function Schedule(p: Policy, s: Sys, t: Template, g: Trigger, taskId: Id, runId: Id, dbNow: Time): (Sys, Answer) {
    var inserted := T.InsertTask(s.store, TaskSpecOf(p, t.config, g), taskId, dbNow);
    if inserted.result.Err? || runId == "" || runId in s.runs then (s, Refused(StorageError))
    else (s.(store := inserted.store, runs := s.runs[runId := RunOf(t, g, taskId)]), Started(runId, taskId))
  }

  // ----- interleavings -----

  datatype Step =
    | CreateStep(config: Config, newId: Id)
    | UpdateStep(id: Id, expected: int, config: Config)
    | PublishStep(id: Id, expected: int)
    | EnableStep(id: Id, expected: int, enabled: bool)
    | TriggerStep(trigger: Trigger, taskId: Id, runId: Id, dbNow: Time)
    | TaskStep(op: T.Op)

  ghost predicate Enabled(s: Sys, step: Step) {
    step.TaskStep? ==> T.Enabled(s.store, step.op)
  }

  ghost function Apply(p: Policy, s: Sys, step: Step): Sys
    requires Enabled(s, step)
  {
    match step
    case CreateStep(config, newId) => Create(p, s, config, newId).0
    case UpdateStep(id, expected, config) => UpdateDraft(p, s, id, expected, config).0
    case PublishStep(id, expected) => Publish(p, s, id, expected).0
    case EnableStep(id, expected, enabled) => SetEnabled(s, id, expected, enabled).0
    case TriggerStep(trigger, taskId, runId, dbNow) => Fire(p, s, trigger, taskId, runId, dbNow).0
    case TaskStep(op) => s.(store := T.Apply(s.store, op))
  }

  ghost predicate Next(p: Policy, s: Sys, step: Step, s': Sys) {
    Enabled(s, step) && s' == Apply(p, s, step)
  }

  ghost predicate Behaviour(p: Policy, states: seq<Sys>, steps: seq<Step>) {
    |states| == |steps| + 1 && forall i :: 0 <= i < |steps| ==> Next(p, states[i], steps[i], states[i + 1])
  }
}
