/** What every interleaving of task transactions keeps: task and run agreement,
    attempt accounting, fencing, the state machine, and lease recovery. */
module TaskProofs {
  import opened Base
  import opened Tasks

  // ----- the invariant -----

  predicate GoodRow(id: Id, t: Task) {
    && 0 <= t.attempts <= t.spec.maxAttempts
    && (t.status == Running <==> t.leaseOwner != "")
    && (t.status == Running <==> t.leaseUntil.Some?)
    && (t.status == Running ==> t.attempts > 0)
    && (t.status == Superseded <==> t.supersededBy.Some?)
    && t.supersededBy != Some(id)
  }

  predicate GoodRun(tasks: map<Id, Task>, r: Run) {
    && r.taskId in tasks
    && 1 <= r.attempt <= tasks[r.taskId].attempts
    && (r.status == Running <==> tasks[r.taskId].status == Running && r.attempt == tasks[r.taskId].attempts)
  }

  predicate IsAttempt(runs: map<Id, Run>, id: Id, k: int, r: Id) {
    r in runs && runs[r].taskId == id && runs[r].attempt == k
  }

  ghost predicate HasAttempt(runs: map<Id, Run>, id: Id, k: int) {
    exists r :: IsAttempt(runs, id, k, r)
  }

  ghost predicate Rows(tasks: map<Id, Task>) {
    forall id :: id in tasks ==> GoodRow(id, tasks[id])
  }

  ghost predicate RunsFit(tasks: map<Id, Task>, runs: map<Id, Run>) {
    forall r :: r in runs ==> GoodRun(tasks, runs[r])
  }

  ghost predicate AttemptsUnique(runs: map<Id, Run>) {
    forall id, k, r, r' :: IsAttempt(runs, id, k, r) && IsAttempt(runs, id, k, r') ==> r == r'
  }

  ghost predicate AttemptsComplete(tasks: map<Id, Task>, runs: map<Id, Run>) {
    forall id, k :: id in tasks && 1 <= k <= tasks[id].attempts ==> HasAttempt(runs, id, k)
  }

  ghost predicate KeysUnique(tasks: map<Id, Task>) {
    forall id, id' :: id in tasks && id' in tasks && tasks[id].spec.sourceKey == tasks[id'].spec.sourceKey ==> id == id'
  }

  ghost predicate Inv(s: Store) {
    && "" !in s.tasks && "" !in s.runs
    && Rows(s.tasks) && RunsFit(s.tasks, s.runs)
    && AttemptsUnique(s.runs) && AttemptsComplete(s.tasks, s.runs) && KeysUnique(s.tasks)
  }

  // ----- what one step may do to a row -----

  /** A path of at most two edges of the task state machine. */
  predicate ShortPath(from: Status, to: Status) {
    from == to || CanTransition(from, to) || (CanTransition(from, Queued) && CanTransition(Queued, to))
  }

  /** Fixed columns never change, the status follows short paths, superseded rows are frozen. */
  predicate RowStep(t: Task, t': Task) {
    && t'.spec == t.spec
    && t.attempts <= t'.attempts <= t.attempts + 1
    && ShortPath(t.status, t'.status)
    && (t.status == Superseded ==> t' == t)
    && (t.status == Succeeded ==> t'.status == Succeeded || t'.status == Superseded)
  }

  /** A run keeps its task and attempt; a run that is over keeps its status, and no run starts running. */
  predicate RunStep(r: Run, r': Run) {
    && r'.taskId == r.taskId && r'.attempt == r.attempt
    && (r'.status != r.status ==> Open(r.status) && r'.status != Running)
  }

  ghost predicate TasksStep(tasks: map<Id, Task>, tasks': map<Id, Task>) {
    forall id :: id in tasks ==> id in tasks' && RowStep(tasks[id], tasks'[id])
  }

  ghost predicate RunsStep(runs: map<Id, Run>, runs': map<Id, Run>) {
    forall r :: r in runs ==> r in runs' && RunStep(runs[r], runs'[r])
  }

  /** Rows are never deleted, and each changes as RowStep and RunStep allow. */
  ghost predicate StoreStep(s: Store, s': Store) {
    TasksStep(s.tasks, s'.tasks) && RunsStep(s.runs, s'.runs)
  }

  // ----- rows: what each statement does to the row it touches -----

  lemma CancelledRowSteps(id: Id, t: Task, note: string, now: Time)
    requires CanTransition(t.status, Cancelled)
    ensures RowStep(t, CancelledRow(t, note, now))
    ensures GoodRow(id, t) ==> GoodRow(id, CancelledRow(t, note, now))
  {
  }

  lemma RetriedRowSteps(id: Id, t: Task, note: string, now: Time)
    requires CanTransition(t.status, Queued)
    ensures RowStep(t, RetriedRow(t, note, now)) && t.status != Running
    ensures GoodRow(id, t) ==> GoodRow(id, RetriedRow(t, note, now))
  {
  }

  predicate Claimable(status: Status) {
    status == Queued || status == Failed || status == Running
  }

  lemma ClaimedRowSteps(id: Id, t: Task, owner: string, lease: Time, now: Time)
    requires Claimable(t.status)
    ensures RowStep(t, ClaimedRow(t, owner, lease, now))
    ensures GoodRow(id, t) && t.attempts < t.spec.maxAttempts && !Blank(owner) ==> GoodRow(id, ClaimedRow(t, owner, lease, now))
  {
  }

  lemma CompletedRowSteps(id: Id, t: Task, status: Status, message: string, now: Time)
    requires CanTransition(t.status, status) && (Finishing(status) || status == AwaitingApproval)
    ensures RowStep(t, CompletedRow(t, status, message, now))
    ensures GoodRow(id, t) ==> GoodRow(id, CompletedRow(t, status, message, now))
  {
  }

  lemma SupersededRowSteps(id: Id, t: Task, newTask: Id, dbNow: Time)
    requires t.status != Superseded && id != newTask
    ensures RowStep(t, SupersededRow(t, newTask, dbNow))
    ensures GoodRow(id, t) ==> GoodRow(id, SupersededRow(t, newTask, dbNow))
  {
  }

  // ----- tables -----

  lemma TasksStepOne(tasks: map<Id, Task>, id: Id, row: Task)
    requires id in tasks ==> RowStep(tasks[id], row)
    ensures TasksStep(tasks, tasks[id := row])
  {
  }

  lemma SupersedeTasksSteps(tasks: map<Id, Task>, repositoryId: string, providerId: string, pullRequest: int, newTask: Id, dbNow: Time)
    ensures TasksStep(tasks, SupersedeTasks(tasks, repositoryId, providerId, pullRequest, newTask, dbNow))
    ensures Rows(tasks) ==> Rows(SupersedeTasks(tasks, repositoryId, providerId, pullRequest, newTask, dbNow))
  {
    var tasks' := SupersedeTasks(tasks, repositoryId, providerId, pullRequest, newTask, dbNow);
    forall id | id in tasks
      ensures RowStep(tasks[id], tasks'[id])
      ensures GoodRow(id, tasks[id]) ==> GoodRow(id, tasks'[id])
    {
      if ToSupersede(tasks[id], id, repositoryId, providerId, pullRequest, newTask) {
        SupersededRowSteps(id, tasks[id], newTask, dbNow);
      }
    }
  }

  lemma SupersedeRunsSteps(runs: map<Id, Run>, tasks: map<Id, Task>, newTask: Id, dbNow: Time)
    ensures RunsStep(runs, SupersedeRuns(runs, tasks, newTask, dbNow))
  {
  }

  lemma ClaimedRunsSteps(s: Store, id: Id, now: Time, runId: Id, correlationId: string)
    requires id in s.tasks && runId !in s.runs
    ensures RunsStep(s.runs, ClaimedRuns(s, id, now, runId, correlationId))
  {
  }

  // ----- every step is a store step -----

  lemma InsertIsAStoreStep(s: Store, spec: TaskSpec, id: Id, dbNow: Time)
    ensures StoreStep(s, InsertTask(s, spec, id, dbNow).store)
  {
  }

  lemma CancelIsAStoreStep(s: Store, id: Id, note: string, now: Time)
    ensures StoreStep(s, CancelTask(s, id, note, now).store)
  {
    if id in s.tasks && CanTransition(s.tasks[id].status, Cancelled) {
      CancelledRowSteps(id, s.tasks[id], note, now);
      TasksStepOne(s.tasks, id, CancelledRow(s.tasks[id], note, now));
    }
  }

  lemma RetryIsAStoreStep(s: Store, id: Id, note: string, now: Time)
    ensures StoreStep(s, RetryTask(s, id, note, now).store)
  {
    if id in s.tasks && CanTransition(s.tasks[id].status, Queued) {
      RetriedRowSteps(id, s.tasks[id], note, now);
      TasksStepOne(s.tasks, id, RetriedRow(s.tasks[id], note, now));
    }
  }

  lemma ClaimEffectIsAStoreStep(s: Store, owner: string, lease: Time, now: Time, runId: Id, correlationId: string, id: Id)
    requires id in s.tasks && Claimable(s.tasks[id].status) && runId !in s.runs
    ensures StoreStep(s, ClaimEffect(s, owner, lease, now, runId, correlationId, id))
  {
    ClaimedRowSteps(id, s.tasks[id], owner, lease, now);
    TasksStepOne(s.tasks, id, ClaimedRow(s.tasks[id], owner, lease, now));
    ClaimedRunsSteps(s, id, now, runId, correlationId);
  }

  lemma ClaimIsAStoreStep(s: Store, owner: string, lease: Time, now: Time, runId: Id, correlationId: string, pick: Option<Id>)
    requires pick.Some? ==> pick.value in s.tasks && Claimable(s.tasks[pick.value].status)
    ensures StoreStep(s, ClaimTask(s, owner, lease, now, runId, correlationId, pick).store)
  {
    if pick.Some? && runId !in s.runs {
      ClaimEffectIsAStoreStep(s, owner, lease, now, runId, correlationId, pick.value);
    }
  }

  lemma CompleteIsAStoreStep(s: Store, id: Id, runId: Id, status: Status, code: string, message: string, now: Time)
    ensures StoreStep(s, CompleteTask(s, id, runId, status, code, message, now).store)
  {
    var s' := CompleteTask(s, id, runId, status, code, message, now).store;
    if s' != s {
      CompletedRowSteps(id, s.tasks[id], status, message, now);
      TasksStepOne(s.tasks, id, CompletedRow(s.tasks[id], status, message, now));
    }
  }

  lemma SupersedeIsAStoreStep(s: Store, repositoryId: string, providerId: string, pullRequest: int, newTask: Id, dbNow: Time)
    ensures StoreStep(s, SupersedeCodeReviews(s, repositoryId, providerId, pullRequest, newTask, dbNow).store)
  {
    SupersedeTasksSteps(s.tasks, repositoryId, providerId, pullRequest, newTask, dbNow);
    SupersedeRunsSteps(s.runs, SupersedeTasks(s.tasks, repositoryId, providerId, pullRequest, newTask, dbNow), newTask, dbNow);
  }

  lemma ClaimOpIsAStoreStep(s: Store, op: Op)
    requires Enabled(s, op) && op.Claim?
    ensures StoreStep(s, Apply(s, op))
  {
    assert op.pick.Some? ==> Candidate(s.tasks, op.dbNow, op.locked, op.pick.value);
    ClaimIsAStoreStep(s, op.owner, op.lease, op.now, op.runId, op.correlationId, op.pick);
  }

  lemma CreateIsAStoreStep(s: Store, input: CreateInput, newId: Id, dbNow: Time)
    ensures StoreStep(s, CreateTask(s, input, newId, dbNow).store)
  {
    InsertIsAStoreStep(s, SpecOf(input), newId, dbNow);
  }

  lemma BeatIsAStoreStep(s: Store, id: Id, owner: string, lease: Time, now: Time)
    ensures StoreStep(s, Heartbeat(s, id, owner, lease, now).store)
  {
  }

  lemma AppendIsAStoreStep(s: Store, runId: Id, input: EventInput, dbNow: Time)
    ensures StoreStep(s, AppendRunEvent(s, runId, input, dbNow).store)
  {
  }

  lemma EveryStepIsAStoreStep(s: Store, op: Op)
    requires Enabled(s, op)
    ensures StoreStep(s, Apply(s, op))
  {
    match op
    case Cancel(id, note, now) => CancelIsAStoreStep(s, id, note, now);
    case Retry(id, note, now) => RetryIsAStoreStep(s, id, note, now);
    case Claim(_, _, _, _, _, _, _, _) => ClaimOpIsAStoreStep(s, op);
    case Complete(id, runId, status, code, message, now) => CompleteIsAStoreStep(s, id, runId, status, code, message, now);
    case Supersede(repositoryId, providerId, pullRequest, newTask, dbNow) =>
      SupersedeIsAStoreStep(s, repositoryId, providerId, pullRequest, newTask, dbNow);
    case Create(input, newId, dbNow) => CreateIsAStoreStep(s, input, newId, dbNow);
    case Insert(spec, newId, dbNow) => InsertIsAStoreStep(s, spec, newId, dbNow);
    case Beat(id, owner, lease, now) => BeatIsAStoreStep(s, id, owner, lease, now);
    case Append(runId, event, dbNow) => AppendIsAStoreStep(s, runId, event, dbNow);
  }

  // ----- every fenced step keeps the invariant -----

  /** Tasks keep their fixed columns and attempts, runs keep their task and attempt, and none appears. */
  ghost predicate Quiet(s: Store, s': Store) {
    && s'.tasks.Keys == s.tasks.Keys && s'.runs.Keys == s.runs.Keys
    && (forall id :: id in s.tasks ==> s'.tasks[id].spec == s.tasks[id].spec && s'.tasks[id].attempts == s.tasks[id].attempts)
    && (forall r :: r in s.runs ==> s'.runs[r].taskId == s.runs[r].taskId && s'.runs[r].attempt == s.runs[r].attempt)
  }

  lemma QuietAttempts(runs: map<Id, Run>, runs': map<Id, Run>)
    requires runs'.Keys == runs.Keys
    requires forall r :: r in runs ==> runs'[r].taskId == runs[r].taskId && runs'[r].attempt == runs[r].attempt
    ensures AttemptsUnique(runs) ==> AttemptsUnique(runs')
    ensures forall id, k :: HasAttempt(runs, id, k) ==> HasAttempt(runs', id, k)
  {
    forall id, k, r
      ensures IsAttempt(runs, id, k, r) <==> IsAttempt(runs', id, k, r)
    {
    }
    forall id, k | HasAttempt(runs, id, k)
      ensures HasAttempt(runs', id, k)
    {
      var r :| IsAttempt(runs, id, k, r);
      assert IsAttempt(runs', id, k, r);
    }
  }

  lemma QuietKeepsInv(s: Store, s': Store)
    requires Inv(s) && Quiet(s, s') && Rows(s'.tasks) && RunsFit(s'.tasks, s'.runs)
    ensures Inv(s')
  {
    QuietAttempts(s.runs, s'.runs);
  }

  lemma RowsOne(tasks: map<Id, Task>, id: Id, row: Task)
    requires Rows(tasks) && GoodRow(id, row)
    ensures Rows(tasks[id := row])
  {
  }

  /** Closing a task's row fits once none of its runs is left running. */
  lemma FitClosed(tasks: map<Id, Task>, runs: map<Id, Run>, id: Id, row: Task, runs': map<Id, Run>)
    requires RunsFit(tasks, runs) && id in tasks && row.attempts == tasks[id].attempts && row.status != Running
    requires runs'.Keys == runs.Keys
    requires forall r :: r in runs ==> runs'[r].taskId == runs[r].taskId && runs'[r].attempt == runs[r].attempt
    requires forall r :: r in runs ==> if runs[r].taskId == id then runs'[r].status != Running else runs'[r].status == runs[r].status
    ensures RunsFit(tasks[id := row], runs')
  {
    forall r | r in runs'
      ensures GoodRun(tasks[id := row], runs'[r])
    {
      assert GoodRun(tasks, runs[r]);
    }
  }

  /** Any update that leaves task id not running, and none of its runs running, keeps the invariant. */
  lemma CloseKeepsInv(s: Store, id: Id, row: Task, runs': map<Id, Run>)
    requires Inv(s) && id in s.tasks && GoodRow(id, row)
    requires row.spec == s.tasks[id].spec && row.attempts == s.tasks[id].attempts && row.status != Running
    requires runs'.Keys == s.runs.Keys
    requires forall r :: r in s.runs ==> runs'[r].taskId == s.runs[r].taskId && runs'[r].attempt == s.runs[r].attempt
    requires forall r :: r in s.runs ==> if s.runs[r].taskId == id then runs'[r].status != Running else runs'[r].status == s.runs[r].status
    ensures Inv(Store(s.tasks[id := row], runs', s.events))
  {
    RowsOne(s.tasks, id, row);
    FitClosed(s.tasks, s.runs, id, row, runs');
    QuietKeepsInv(s, Store(s.tasks[id := row], runs', s.events));
  }

  lemma CancelKeepsInv(s: Store, id: Id, note: string, now: Time)
    requires Inv(s)
    ensures Inv(CancelTask(s, id, note, now).store)
  {
    if id in s.tasks && CanTransition(s.tasks[id].status, Cancelled) {
      CancelledRowSteps(id, s.tasks[id], note, now);
      CloseKeepsInv(s, id, CancelledRow(s.tasks[id], note, now), CancelRuns(s.runs, id, note, now));
    }
  }

  lemma IdleHasNoRunningRun(s: Store, id: Id, r: Id)
    requires Inv(s) && r in s.runs && s.runs[r].taskId == id && id in s.tasks && s.tasks[id].status != Running
    ensures s.runs[r].status != Running
  {
    assert GoodRun(s.tasks, s.runs[r]);
  }

  lemma RetryKeepsInv(s: Store, id: Id, note: string, now: Time)
    requires Inv(s)
    ensures Inv(RetryTask(s, id, note, now).store)
  {
    if id in s.tasks && CanTransition(s.tasks[id].status, Queued) {
      RetriedRowSteps(id, s.tasks[id], note, now);
      forall r | r in s.runs && s.runs[r].taskId == id
        ensures s.runs[r].status != Running
      {
        IdleHasNoRunningRun(s, id, r);
      }
      CloseKeepsInv(s, id, RetriedRow(s.tasks[id], note, now), s.runs);
    }
  }

  lemma BeatKeepsInv(s: Store, id: Id, owner: string, lease: Time, now: Time)
    requires Inv(s)
    ensures Inv(Heartbeat(s, id, owner, lease, now).store)
  {
    var s' := Heartbeat(s, id, owner, lease, now).store;
    if s' != s {
      assert GoodRow(id, s.tasks[id]);
      RowsOne(s.tasks, id, s'.tasks[id]);
      forall r | r in s.runs
        ensures GoodRun(s'.tasks, s.runs[r])
      {
        assert GoodRun(s.tasks, s.runs[r]);
      }
      QuietKeepsInv(s, s');
    }
  }

  /** The running run of a task is the one with the latest attempt number, so closing it closes the task. */
  lemma OnlyRunning(s: Store, r: Id, r': Id)
    requires Inv(s) && r in s.runs && r' in s.runs
    requires s.runs[r].status == Running && s.runs[r'].status == Running && s.runs[r].taskId == s.runs[r'].taskId
    ensures r == r'
  {
    var id, k := s.runs[r].taskId, s.runs[r].attempt;
    assert GoodRun(s.tasks, s.runs[r]) && GoodRun(s.tasks, s.runs[r']);
    assert IsAttempt(s.runs, id, k, r) && IsAttempt(s.runs, id, k, r');
  }

  lemma CompleteEffectKeepsInv(s: Store, id: Id, runId: Id, row: Task, run: Run)
    requires Inv(s) && id in s.tasks && runId in s.runs && s.runs[runId].taskId == id && s.runs[runId].status == Running
    requires GoodRow(id, row) && row.spec == s.tasks[id].spec && row.attempts == s.tasks[id].attempts && row.status != Running
    requires run.taskId == id && run.attempt == s.runs[runId].attempt && run.status != Running
    ensures Inv(Store(s.tasks[id := row], s.runs[runId := run], s.events))
  {
    forall r | r in s.runs && s.runs[r].taskId == id && r != runId
      ensures s.runs[r].status != Running
    {
      if s.runs[r].status == Running { OnlyRunning(s, r, runId); }
    }
    CloseKeepsInv(s, id, row, s.runs[runId := run]);
  }

  lemma CompleteKeepsInv(s: Store, id: Id, runId: Id, status: Status, code: string, message: string, now: Time)
    requires Inv(s) && runId != ""
    ensures Inv(CompleteTask(s, id, runId, status, code, message, now).store)
  {
    if CompleteTask(s, id, runId, status, code, message, now).store != s {
      CompletedRowSteps(id, s.tasks[id], status, message, now);
      CompleteEffectKeepsInv(s, id, runId, CompletedRow(s.tasks[id], status, message, now),
                             CompletedRun(s.runs[runId], status, code, message, now));
    }
  }

  lemma SupersedeFits(s: Store, repositoryId: string, providerId: string, pullRequest: int, newTask: Id, dbNow: Time)
    requires Inv(s)
    ensures var tasks := SupersedeTasks(s.tasks, repositoryId, providerId, pullRequest, newTask, dbNow);
            RunsFit(tasks, SupersedeRuns(s.runs, tasks, newTask, dbNow))
  {
    var tasks := SupersedeTasks(s.tasks, repositoryId, providerId, pullRequest, newTask, dbNow);
    var runs := SupersedeRuns(s.runs, tasks, newTask, dbNow);
    forall r | r in runs
      ensures GoodRun(tasks, runs[r])
    {
      assert GoodRun(s.tasks, s.runs[r]);
      assert GoodRow(s.runs[r].taskId, s.tasks[s.runs[r].taskId]);
    }
  }

  lemma SupersedeIsQuiet(s: Store, repositoryId: string, providerId: string, pullRequest: int, newTask: Id, dbNow: Time)
    ensures var tasks := SupersedeTasks(s.tasks, repositoryId, providerId, pullRequest, newTask, dbNow);
            Quiet(s, Store(tasks, SupersedeRuns(s.runs, tasks, newTask, dbNow), s.events))
  {
  }

  lemma SupersedeKeepsInv(s: Store, repositoryId: string, providerId: string, pullRequest: int, newTask: Id, dbNow: Time)
    requires Inv(s)
    ensures Inv(SupersedeCodeReviews(s, repositoryId, providerId, pullRequest, newTask, dbNow).store)
  {
    var tasks := SupersedeTasks(s.tasks, repositoryId, providerId, pullRequest, newTask, dbNow);
    SupersedeTasksSteps(s.tasks, repositoryId, providerId, pullRequest, newTask, dbNow);
    SupersedeFits(s, repositoryId, providerId, pullRequest, newTask, dbNow);
    SupersedeIsQuiet(s, repositoryId, providerId, pullRequest, newTask, dbNow);
    QuietKeepsInv(s, Store(tasks, SupersedeRuns(s.runs, tasks, newTask, dbNow), s.events));
  }

  lemma InsertKeepsInv(s: Store, spec: TaskSpec, id: Id, dbNow: Time)
    requires Inv(s)
    ensures Inv(InsertTask(s, spec, id, dbNow).store)
  {
    var s' := InsertTask(s, spec, id, dbNow).store;
    if s' != s {
      RowsOne(s.tasks, id, s'.tasks[id]);
      forall r | r in s.runs
        ensures GoodRun(s'.tasks, s.runs[r])
      {
        assert GoodRun(s.tasks, s.runs[r]);
      }
      forall x | x in s.tasks
        ensures s.tasks[x].spec.sourceKey != spec.sourceKey
      {
        assert !HasSourceKey(s, x, spec.sourceKey);
      }
    }
  }

  lemma ClaimFits(s: Store, id: Id, owner: string, lease: Time, now: Time, runId: Id, correlationId: string)
    requires Inv(s) && id in s.tasks && runId !in s.runs
    ensures RunsFit(s.tasks[id := ClaimedRow(s.tasks[id], owner, lease, now)], ClaimedRuns(s, id, now, runId, correlationId))
  {
    var tasks := s.tasks[id := ClaimedRow(s.tasks[id], owner, lease, now)];
    var runs := ClaimedRuns(s, id, now, runId, correlationId);
    assert GoodRow(id, s.tasks[id]);
    forall r | r in runs
      ensures GoodRun(tasks, runs[r])
    {
      if r != runId { assert GoodRun(s.tasks, s.runs[r]); }
    }
  }

  lemma ClaimAttempts(s: Store, id: Id, now: Time, runId: Id, correlationId: string)
    requires Inv(s) && id in s.tasks && runId !in s.runs
    ensures var runs := ClaimedRuns(s, id, now, runId, correlationId);
            && AttemptsUnique(runs)
            && HasAttempt(runs, id, s.tasks[id].attempts + 1)
            && forall i, k :: HasAttempt(s.runs, i, k) ==> HasAttempt(runs, i, k)
  {
    var runs := ClaimedRuns(s, id, now, runId, correlationId);
    var n := s.tasks[id].attempts + 1;
    forall i, k, r, r' | IsAttempt(runs, i, k, r) && IsAttempt(runs, i, k, r')
      ensures r == r'
    {
      if r != runId { assert IsAttempt(s.runs, i, k, r) && GoodRun(s.tasks, s.runs[r]); }
      if r' != runId { assert IsAttempt(s.runs, i, k, r') && GoodRun(s.tasks, s.runs[r']); }
    }
    assert IsAttempt(runs, id, n, runId);
    forall i, k | HasAttempt(s.runs, i, k)
      ensures HasAttempt(runs, i, k)
    {
      var r :| IsAttempt(s.runs, i, k, r);
      assert IsAttempt(runs, i, k, r);
    }
  }

  lemma ClaimEffectKeepsInv(s: Store, owner: string, lease: Time, now: Time, runId: Id, correlationId: string, id: Id)
    requires Inv(s) && id in s.tasks && Claimable(s.tasks[id].status) && s.tasks[id].attempts < s.tasks[id].spec.maxAttempts
    requires runId !in s.runs && runId != "" && !Blank(owner)
    ensures Inv(ClaimEffect(s, owner, lease, now, runId, correlationId, id))
  {
    var row := ClaimedRow(s.tasks[id], owner, lease, now);
    ClaimedRowSteps(id, s.tasks[id], owner, lease, now);
    RowsOne(s.tasks, id, row);
    ClaimFits(s, id, owner, lease, now, runId, correlationId);
    ClaimAttempts(s, id, now, runId, correlationId);
    assert KeysUnique(s.tasks[id := row]);
  }

  lemma ClaimKeepsInv(s: Store, op: Op)
    requires Inv(s) && op.Claim? && Enabled(s, op)
    ensures Inv(Apply(s, op))
  {
    if op.pick.Some? && !Blank(op.owner) && op.runId !in s.runs && op.runId != "" {
      assert Candidate(s.tasks, op.dbNow, op.locked, op.pick.value);
      ClaimEffectKeepsInv(s, op.owner, op.lease, op.now, op.runId, op.correlationId, op.pick.value);
    }
  }

  lemma StepKeepsInv(s: Store, op: Op)
    requires Inv(s) && Enabled(s, op) && Fenced(op)
    ensures Inv(Apply(s, op))
  {
    match op
    case Create(input, newId, dbNow) => InsertKeepsInv(s, SpecOf(input), newId, dbNow);
    case Insert(spec, newId, dbNow) => InsertKeepsInv(s, spec, newId, dbNow);
    case Cancel(id, note, now) => CancelKeepsInv(s, id, note, now);
    case Retry(id, note, now) => RetryKeepsInv(s, id, note, now);
    case Claim(_, _, _, _, _, _, _, _) => ClaimKeepsInv(s, op);
    case Beat(id, owner, lease, now) => BeatKeepsInv(s, id, owner, lease, now);
    case Complete(id, runId, status, code, message, now) => CompleteKeepsInv(s, id, runId, status, code, message, now);
    case Supersede(repositoryId, providerId, pullRequest, newTask, dbNow) =>
      SupersedeKeepsInv(s, repositoryId, providerId, pullRequest, newTask, dbNow);
    case Append(_, _, _) =>
  }

  /** Runs are never deleted and keep their task. */
  lemma {:induction false} RunStays(states: seq<Store>, ops: seq<Op>, i: nat, j: nat, r: Id)
    requires Behaviour(states, ops) && i <= j <= |ops| && r in states[i].runs
    ensures r in states[j].runs && states[j].runs[r].taskId == states[i].runs[r].taskId
    decreases j
  {
    if i < j {
      RunStays(states, ops, i, j - 1, r);
      assert Step(states[j - 1], ops[j - 1], states[j]);
      assert RunsStep(states[j - 1].runs, states[j].runs) by { EveryStepIsAStoreStep(states[j - 1], ops[j - 1]); }
    }
  }

  lemma {:induction false} InvAlong(states: seq<Store>, ops: seq<Op>, n: nat)
    requires Behaviour(states, ops) && Inv(states[0]) && n <= |ops|
    requires forall i :: 0 <= i < n ==> Fenced(ops[i])
    ensures Inv(states[n])
  {
    if n > 0 {
      InvAlong(states, ops, n - 1);
      assert Step(states[n - 1], ops[n - 1], states[n]);
      StepKeepsInv(states[n - 1], ops[n - 1]);
    }
  }
}
