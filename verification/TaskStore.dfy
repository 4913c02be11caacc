/** The task store as an object whose rows the transactions update in place. Each method
    is proved to be the corresponding step of module Tasks; a failed statement restores
    the rows saved at the start of its transaction. */
module TaskStore {
  import opened Base
  import T = Tasks

  /** ORDER BY priority DESC, available_at, created_at, as a comparison of two rows. */
  predicate ComesBefore(t: T.Task, u: T.Task) {
    if t.spec.priority != u.spec.priority then t.spec.priority > u.spec.priority
    else if t.availableAt != u.availableAt then t.availableAt < u.availableAt
    else t.spec.createdAt < u.spec.createdAt
  }

  /** The claiming query: ORDER BY and LIMIT 1 over the rows that are not locked. No unlocked eligible row
      has a higher priority, or the same and an earlier availability, or the same and an earlier creation. */
  method FirstCandidate(tasks: map<Id, T.Task>, dbNow: Time, locked: set<Id>) returns (pick: Option<Id>)
    ensures T.ValidPick(tasks, dbNow, locked, pick)
    ensures pick.Some? ==> forall id :: T.Candidate(tasks, dbNow, locked, id) ==> !ComesBefore(tasks[id], tasks[pick.value])
  {
    pick := None;
    var todo := tasks.Keys;
    while todo != {}
      invariant todo <= tasks.Keys
      invariant pick.None? ==> forall id :: T.Candidate(tasks, dbNow, locked, id) ==> id in todo
      invariant pick.Some? ==> T.Candidate(tasks, dbNow, locked, pick.value)
      invariant pick.Some? ==> forall id :: T.Candidate(tasks, dbNow, locked, id) && id !in todo ==>
        T.NotAfter(tasks[pick.value], tasks[id])
      decreases todo
    {
      var id :| id in todo;
      todo := todo - {id};
      var t := tasks[id];
      if id !in locked && t.attempts < t.spec.maxAttempts
        && (((t.status == T.Queued || t.status == T.Failed) && t.availableAt <= dbNow)
            || (t.status == T.Running && t.leaseUntil.Some? && t.leaseUntil.value < dbNow)) {
        if pick.None? || ComesBefore(t, tasks[pick.value]) {
          pick := Some(id);
        }
      }
    }
  }

  /** The row that owns a source key. */
  method FindSourceKey(tasks: map<Id, T.Task>, key: string) returns (owner: Option<Id>)
    ensures owner.Some? ==> owner.value in tasks && tasks[owner.value].spec.sourceKey == key
    ensures owner.None? ==> forall id :: id in tasks ==> tasks[id].spec.sourceKey != key
  {
    owner := None;
    var todo := tasks.Keys;
    while todo != {}
      invariant todo <= tasks.Keys && owner.None?
      invariant forall id :: id in tasks && id !in todo ==> tasks[id].spec.sourceKey != key
      decreases todo
    {
      var id :| id in todo;
      if tasks[id].spec.sourceKey == key {
        return Some(id);
      }
      todo := todo - {id};
    }
  }

  /** The uniqueness constraints of the runs table. */
  method DuplicateRun(runs: map<Id, T.Run>, runId: Id, id: Id, attempt: int, correlationId: string) returns (taken: bool)
    ensures taken == T.RunKeyTaken(runs, runId, id, attempt, correlationId)
  {
    taken := runId == "" || runId in runs
      || (exists r :: r in runs && runs[r].correlationId == correlationId)
      || (exists r :: r in runs && runs[r].taskId == id && runs[r].attempt == attempt);
  }

  class PostgreSQLStore {
    var tasks: map<Id, T.Task>
    var runs: map<Id, T.Run>
    var events: map<Id, seq<T.Event>>

    ghost function State(): T.Store reads this { T.Store(tasks, runs, events) }

    constructor ()
      ensures State() == T.EMPTY
    {
      tasks, runs, events := map[], map[], map[];
    }

    /** A second create with the same source key returns the first row. */
    method CreateTask(input: T.CreateInput, newId: Id, dbNow: Time) returns (r: Result<(Id, T.Task), T.Error>)
      modifies this
      ensures State() == T.CreateTask(old(State()), input, newId, dbNow).store
      ensures State() == T.Apply(old(State()), T.Create(input, newId, dbNow))
      ensures r.Err? ==> r == T.CreateTask(old(State()), input, newId, dbNow).result
      ensures r.Ok? ==> T.CreateTask(old(State()), input, newId, dbNow).result.Ok?
      ensures r.Ok? ==> T.HasSourceKey(State(), r.value.0, input.sourceKey) && tasks[r.value.0] == r.value.1
    {
      if input.kind != T.CodeReview && input.kind != T.CIDiagnosis && input.kind != T.IssueRepair {
        return Err(T.InvalidKind);
      }
      BlankIsTrimmedEmpty(input.title);
      BlankIsTrimmedEmpty(input.sourceKey);
      if Trim(input.title) == "" || Trim(input.sourceKey) == ""
        || (input.createdBy == "" && !(|input.sourceKey| >= 7 && input.sourceKey[..7] == "github:")) {
        return Err(T.MissingFields);
      }
      var maxAttempts := if input.maxAttempts <= 0 then 3 else input.maxAttempts;
      var owner := FindSourceKey(tasks, input.sourceKey);
      if owner.Some? {
        assert T.HasSourceKey(State(), owner.value, input.sourceKey);
        return Ok((owner.value, tasks[owner.value]));
      }
      assert !T.SourceKeyTaken(State(), T.SpecOf(input).sourceKey);
      if newId == "" || newId in tasks {
        return Err(T.StorageError);
      }
      var spec := T.TaskSpec(
        input.kind, Trim(input.title), input.repositoryId, input.repositoryName, input.sourceKey, input.payload,
        input.priority, maxAttempts, input.createdBy, input.createdAt);
      var row := T.Task(spec, T.Queued, 0, dbNow, "", None, "", None, input.createdAt, None, None);
      tasks := tasks[newId := row];
      return Ok((newId, row));
    }

    /** A plain insert, as the automation store makes it: a taken source key is an error. */
    method InsertTask(spec: T.TaskSpec, newId: Id, dbNow: Time) returns (r: Result<T.Task, T.Error>)
      modifies this
      ensures T.Outcome(State(), r) == T.InsertTask(old(State()), spec, newId, dbNow)
      ensures State() == T.Apply(old(State()), T.Insert(spec, newId, dbNow))
    {
      var owner := FindSourceKey(tasks, spec.sourceKey);
      if owner.Some? {
        assert T.HasSourceKey(State(), owner.value, spec.sourceKey);
      }
      if newId == "" || newId in tasks || owner.Some? || spec.maxAttempts <= 0 {
        return Err(T.StorageError);
      }
      var row := T.Task(spec, T.Queued, 0, dbNow, "", None, "", None, spec.createdAt, None, None);
      tasks := tasks[newId := row];
      return Ok(row);
    }

    method CancelTask(id: Id, note: string, now: Time) returns (r: Result<T.Task, T.Error>)
      modifies this
      ensures T.Outcome(State(), r) == T.CancelTask(old(State()), id, note, now)
      ensures State() == T.Apply(old(State()), T.Cancel(id, note, now))
    {
      if id !in tasks {
        return Err(T.TaskNotFound);
      }
      var task := tasks[id];
      if !T.CanTransition(task.status, T.Cancelled) {
        return Err(T.InvalidTransition(task.status, T.Cancelled));
      }
      task := task.(status := T.Cancelled, lastError := note, leaseOwner := "", leaseUntil := None);
      task := task.(finishedAt := Some(now), updatedAt := now);
      tasks := tasks[id := task];
      runs := map r | r in runs ::
        if runs[r].taskId == id && (runs[r].status == T.Queued || runs[r].status == T.Running || runs[r].status == T.AwaitingApproval)
        then runs[r].(status := T.Cancelled, error := T.CancelledError(note), finishedAt := Some(now))
        else runs[r];
      return Ok(tasks[id]);
    }

    method RetryTask(id: Id, note: string, now: Time) returns (r: Result<T.Task, T.Error>)
      modifies this
      ensures T.Outcome(State(), r) == T.RetryTask(old(State()), id, note, now)
      ensures State() == T.Apply(old(State()), T.Retry(id, note, now))
    {
      if id !in tasks {
        return Err(T.TaskNotFound);
      }
      var task := tasks[id];
      if !T.CanTransition(task.status, T.Queued) {
        return Err(T.InvalidTransition(task.status, T.Queued));
      }
      task := task.(status := T.Queued, lastError := note, availableAt := now, leaseOwner := "", leaseUntil := None);
      task := task.(finishedAt := None, updatedAt := now);
      tasks := tasks[id := task];
      return Ok(tasks[id]);
    }

    method ExpireRuns(id: Id, now: Time)
      modifies this`runs
      ensures runs == T.ExpireRuns(old(runs), id, now)
    {
      runs := map r | r in runs ::
        if runs[r].taskId == id && runs[r].status == T.Running
        then runs[r].(status := T.Failed, error := T.LeaseExpired, finishedAt := Some(now))
        else runs[r];
    }

    /** Closes the lapsed run, then updates the task, then inserts the new run; a duplicate
        run key undoes the first two. */
    method ClaimTask(owner: string, lease: Time, dbNow: Time, now: Time, runId: Id, correlationId: string, locked: set<Id>)
      returns (r: Result<(Id, T.Task, T.Run), T.Error>, ghost pick: Option<Id>)
      modifies this
      ensures T.ValidPick(old(tasks), dbNow, locked, pick)
      ensures T.Outcome(State(), r) == T.ClaimTask(old(State()), owner, lease, now, runId, correlationId, pick)
      ensures T.Step(old(State()), T.Claim(owner, lease, dbNow, now, runId, correlationId, locked, pick), State())
    {
      var found := FirstCandidate(tasks, dbNow, locked);
      pick := found;
      if Blank(owner) {
        return Err(T.OwnerRequired), pick;
      }
      if lease <= 0 {
        return Err(T.LeaseNotPositive), pick;
      }
      if found.None? {
        return Err(T.TaskNotFound), pick;
      }
      var id := found.value;
      var task := tasks[id];
      var attempt := task.attempts + 1;
      var savedTasks, savedRuns := tasks, runs;
      if task.status == T.Running {
        ExpireRuns(id, now);
      }
      var startedAt := if task.startedAt.Some? then task.startedAt else Some(now);
      task := task.(status := T.Running, attempts := attempt, leaseOwner := owner, leaseUntil := Some(now + lease));
      task := task.(startedAt := startedAt, updatedAt := now);
      tasks := tasks[id := task];
      var taken := DuplicateRun(savedRuns, runId, id, attempt, correlationId);
      if taken {
        tasks, runs := savedTasks, savedRuns;
        return Err(T.StorageError), pick;
      }
      var run := T.Run(id, attempt, T.Running, correlationId, T.NoError, now, None);
      runs := runs[runId := run];
      return Ok((id, tasks[id].(startedAt := Some(now)), run)), pick;
    }

    method Heartbeat(id: Id, owner: string, lease: Time, now: Time) returns (r: Result<(), T.Error>)
      modifies this
      ensures T.Outcome(State(), r) == T.Heartbeat(old(State()), id, owner, lease, now)
      ensures State() == T.Apply(old(State()), T.Beat(id, owner, lease, now))
    {
      if lease <= 0 {
        return Err(T.LeaseNotPositive);
      }
      if id !in tasks || tasks[id].status != T.Running || tasks[id].leaseOwner != owner {
        return Err(T.LeaseLost);
      }
      tasks := tasks[id := tasks[id].(leaseUntil := Some(now + lease), updatedAt := now + lease)];
      return Ok(());
    }

    method CompleteTask(id: Id, runId: Id, status: T.Status, code: string, message: string, now: Time)
      returns (r: Result<(), T.Error>)
      modifies this
      ensures T.Outcome(State(), r) == T.CompleteTask(old(State()), id, runId, status, code, message, now)
      ensures State() == T.Apply(old(State()), T.Complete(id, runId, status, code, message, now))
    {
      if !T.Finishing(status) && status != T.AwaitingApproval {
        return Err(T.InvalidStatus);
      }
      if id !in tasks {
        return Err(T.TaskNotFound);
      }
      var current := tasks[id].status;
      if runId != "" {
        if runId !in runs || runs[runId].taskId != id {
          return Err(T.RunNotFound);
        }
        if runs[runId].status != T.Running {
          return if current == status && runs[runId].status == status then Ok(()) else Err(T.LeaseLost);
        }
      }
      if current == status && T.Finishing(status) {
        return Ok(());
      }
      if !T.CanTransition(current, status) {
        return Err(T.InvalidTransition(current, status));
      }
      var task := tasks[id].(status := status, lastError := message, leaseOwner := "", leaseUntil := None, updatedAt := now);
      var finished := status == T.Succeeded || status == T.Failed || status == T.Cancelled;
      if finished {
        task := task.(finishedAt := Some(now));
      }
      tasks := tasks[id := task];
      if runId != "" {
        var run := runs[runId].(status := status, error := T.Reported(code, message));
        runs := runs[runId := if finished then run.(finishedAt := Some(now)) else run];
      }
      return Ok(());
    }

    method SupersedeRows(repositoryId: string, providerId: string, pullRequest: int, newTask: Id, dbNow: Time)
      modifies this`tasks
      ensures tasks == T.SupersedeTasks(old(tasks), repositoryId, providerId, pullRequest, newTask, dbNow)
    {
      tasks := map id | id in tasks ::
        var t := tasks[id];
        if t.spec.kind == T.CodeReview && id != newTask && t.status != T.Superseded
           && ((repositoryId != "" && t.spec.repositoryId == repositoryId)
               || (t.spec.repositoryId == "" && providerId != "" && t.spec.payload.repositoryId == Some(providerId)))
           && t.spec.payload.pullRequestNumber == Some(pullRequest)
        then t.(status := T.Superseded, supersededBy := Some(newTask), leaseOwner := "", leaseUntil := None,
                finishedAt := if t.finishedAt.Some? then t.finishedAt else Some(dbNow), updatedAt := dbNow)
        else t;
    }

    method SupersedeOpenRuns(newTask: Id, dbNow: Time)
      modifies this`runs
      ensures runs == T.SupersedeRuns(old(runs), tasks, newTask, dbNow)
    {
      runs := map r | r in runs ::
        var run := runs[r];
        if run.taskId in tasks && tasks[run.taskId].spec.kind == T.CodeReview && tasks[run.taskId].supersededBy == Some(newTask)
           && (run.status == T.Queued || run.status == T.Running || run.status == T.AwaitingApproval)
        then run.(status := T.Superseded, error := T.SupersededError, finishedAt := Some(dbNow))
        else run;
    }

    method SupersedeCodeReviews(repositoryId: string, providerId: string, pullRequest: int, newTask: Id, dbNow: Time)
      returns (r: Result<(), T.Error>)
      modifies this
      ensures T.Outcome(State(), r) == T.SupersedeCodeReviews(old(State()), repositoryId, providerId, pullRequest, newTask, dbNow)
      ensures State() == T.Apply(old(State()), T.Supersede(repositoryId, providerId, pullRequest, newTask, dbNow))
    {
      if newTask !in tasks && exists id :: id in tasks && T.ToSupersede(tasks[id], id, repositoryId, providerId, pullRequest, newTask) {
        return Err(T.StorageError);
      }
      SupersedeRows(repositoryId, providerId, pullRequest, newTask, dbNow);
      SupersedeOpenRuns(newTask, dbNow);
      return Ok(());
    }

    method AppendRunEvent(runId: Id, input: T.EventInput, dbNow: Time) returns (r: Result<T.Event, T.Error>)
      modifies this
      ensures T.Outcome(State(), r) == T.AppendRunEvent(old(State()), runId, input, dbNow)
      ensures State() == T.Apply(old(State()), T.Append(runId, input, dbNow))
    {
      if runId !in runs {
        return Err(T.RunNotFound);
      }
      var log := if runId in events then events[runId] else [];
      var event := T.Event(T.MaxSequence(log) + 1, input, dbNow);
      events := events[runId := log + [event]];
      return Ok(event);
    }
  }
}
