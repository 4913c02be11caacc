/** The main results about the task queue, for every behaviour of any number of
    API processes and workers, stale ones included. */
module TaskTheorems {
  import opened Base
  import opened Tasks
  import opened TaskProofs

  // ----- task and run agreement -----

  ghost function RunningRuns(s: Store, id: Id): set<Id> {
    set r | r in s.runs && s.runs[r].taskId == id && s.runs[r].status == Running
  }

  ghost predicate Agrees(s: Store, id: Id)
    requires id in s.tasks
  {
    var t := s.tasks[id];
    if t.status == Running then
      && t.leaseOwner != "" && t.leaseUntil.Some?
      && exists r :: r in s.runs && s.runs[r].attempt == t.attempts && RunningRuns(s, id) == {r}
    else
      t.leaseOwner == "" && t.leaseUntil.None? && RunningRuns(s, id) == {}
  }

  lemma InvAgrees(s: Store, id: Id)
    requires Inv(s) && id in s.tasks
    ensures Agrees(s, id)
  {
    var t := s.tasks[id];
    assert GoodRow(id, t);
    if t.status == Running {
      assert HasAttempt(s.runs, id, t.attempts);
      var r :| IsAttempt(s.runs, id, t.attempts, r);
      assert GoodRun(s.tasks, s.runs[r]);
      forall r' | r' in RunningRuns(s, id)
        ensures r' == r
      {
        OnlyRunning(s, r, r');
      }
      assert RunningRuns(s, id) == {r};
    } else {
      forall r | r in s.runs && s.runs[r].taskId == id
        ensures s.runs[r].status != Running
      {
        IdleHasNoRunningRun(s, id, r);
      }
    }
  }

  lemma EmptyStoreIsGood()
    ensures Inv(EMPTY)
  {
  }

  /** In every reachable store a task is running exactly when it has exactly one running run, whose
      attempt number is the task's counter, and a lease owner and deadline are present exactly then. */
  lemma TaskRunAgreement(states: seq<Store>, ops: seq<Op>, n: nat, id: Id)
    requires Behaviour(states, ops) && states[0] == EMPTY && n <= |ops|
    requires forall i :: 0 <= i < n ==> Fenced(ops[i])
    requires id in states[n].tasks
    ensures Agrees(states[n], id)
  {
    EmptyStoreIsGood();
    InvAlong(states, ops, n);
    InvAgrees(states[n], id);
  }

  ghost predicate AllAgree(s: Store) {
    forall id :: id in s.tasks ==> Agrees(s, id)
  }

  /** The guard that a completion without a run identifier passes when it hits a running task. */
  predicate HitsRunning(s: Store, id: Id, status: Status) {
    id in s.tasks && s.tasks[id].status == Running && (Finishing(status) || status == AwaitingApproval)
  }

  /** A completion without a run identifier breaks the agreement exactly when it hits a running task. */
  lemma UnfencedCompletion(s: Store, id: Id, status: Status, code: string, message: string, now: Time)
    requires Inv(s)
    ensures AllAgree(CompleteTask(s, id, "", status, code, message, now).store) <==> !HitsRunning(s, id, status)
  {
    var s' := CompleteTask(s, id, "", status, code, message, now).store;
    UnfencedInvariant(s, id, status, code, message, now);
    if HitsRunning(s, id, status) {
      assert s'.tasks[id].status != Running;
      UnfencedDisagrees(s, s', id);
    } else {
      forall t | t in s'.tasks
        ensures Agrees(s', t)
      {
        InvAgrees(s', t);
      }
    }
  }

  /** The task has stopped and its run has not. */
  lemma UnfencedDisagrees(s: Store, s': Store, id: Id)
    requires Inv(s) && id in s.tasks && s.tasks[id].status == Running
    requires id in s'.tasks && s'.tasks[id].status != Running && s'.runs == s.runs
    ensures !Agrees(s', id)
  {
    assert GoodRow(id, s.tasks[id]);
    assert HasAttempt(s.runs, id, s.tasks[id].attempts);
    var r :| IsAttempt(s.runs, id, s.tasks[id].attempts, r);
    assert GoodRun(s.tasks, s.runs[r]);
    assert r in RunningRuns(s', id);
  }

  /** The same holds of the whole invariant. */
  lemma UnfencedInvariant(s: Store, id: Id, status: Status, code: string, message: string, now: Time)
    requires Inv(s)
    ensures var s' := CompleteTask(s, id, "", status, code, message, now).store;
            Inv(s') <==> !HitsRunning(s, id, status)
  {
    var s' := CompleteTask(s, id, "", status, code, message, now).store;
    if s' != s {
      CompletedRowSteps(id, s.tasks[id], status, message, now);
      if s.tasks[id].status == Running {
        UnfencedLeavesRunning(s, id, s'.tasks[id]);
      } else {
        forall r | r in s.runs && s.runs[r].taskId == id
          ensures s.runs[r].status != Running
        {
          IdleHasNoRunningRun(s, id, r);
        }
        CloseKeepsInv(s, id, CompletedRow(s.tasks[id], status, message, now), s.runs);
      }
    }
  }

  lemma UnfencedLeavesRunning(s: Store, id: Id, row: Task)
    requires Inv(s) && id in s.tasks && s.tasks[id].status == Running && row.status != Running
    ensures !RunsFit(s.tasks[id := row], s.runs)
  {
    assert GoodRow(id, s.tasks[id]);
    assert HasAttempt(s.runs, id, s.tasks[id].attempts);
    var r :| IsAttempt(s.runs, id, s.tasks[id].attempts, r);
    assert GoodRun(s.tasks, s.runs[r]);
    assert !GoodRun(s.tasks[id := row], s.runs[r]);
  }

  /** A reachable case: insert, claim, complete without a run identifier. */
  lemma UnfencedCompletionBreaksAgreement(spec: TaskSpec, lease: Time) returns (states: seq<Store>, ops: seq<Op>)
    requires spec.maxAttempts > 0 && lease > 0
    ensures Behaviour(states, ops) && states[0] == EMPTY && |ops| == 3 && "t" in states[3].tasks
    ensures states[3].tasks["t"].status == Succeeded && RunningRuns(states[3], "t") == {"r"} && !Agrees(states[3], "t")
  {
    var insert := Insert(spec, "t", 0);
    var s1 := EMPTY.(tasks := map["t" := NewTask(spec, 0)]);
    assert s1 == Apply(EMPTY, insert);
    var claim := Claim("w", lease, 0, 0, "r", "c", {}, Some("t"));
    assert Candidate(s1.tasks, 0, {}, "t");
    var s2 := ClaimEffect(s1, "w", lease, 0, "r", "c", "t");
    assert "w"[0] == 'w' && !IsSpace("w"[0]);
    assert s2 == Apply(s1, claim);
    var complete := Complete("t", "", Succeeded, "", "", 0);
    states, ops := [EMPTY, s1, s2, Apply(s2, complete)], [insert, claim, complete];
    assert states[3].runs == map["r" := NewRun("t", 1, "c", 0)];
    assert RunningRuns(states[3], "t") == {"r"};
    forall i | 0 <= i < 3 ensures Step(states[i], ops[i], states[i + 1]) {
      assert i == 0 || i == 1 || i == 2;
    }
  }

  // ----- fencing and the state machine over whole behaviours -----

  predicate Over(s: Store, r: Id) {
    r in s.runs && s.runs[r].status != Running
  }

  lemma {:induction false} StoppedStaysStopped(states: seq<Store>, ops: seq<Op>, i: nat, j: nat, r: Id)
    requires Behaviour(states, ops) && i <= j <= |ops| && Over(states[i], r)
    ensures Over(states[j], r)
    decreases j
  {
    if i < j {
      StoppedStaysStopped(states, ops, i, j - 1, r);
      assert Step(states[j - 1], ops[j - 1], states[j]);
      EveryStepIsAStoreStep(states[j - 1], ops[j - 1]);
    }
  }

  /** Once a run has stopped, by completion, lease expiry, cancellation or supersession, it never runs
      again, and every later completion that carries its identifier leaves the whole store unchanged. */
  lemma Fencing(states: seq<Store>, ops: seq<Op>, i: nat, j: nat, r: Id)
    requires Behaviour(states, ops) && i <= j <= |ops| && r != "" && Over(states[i], r)
    ensures Over(states[j], r)
    ensures forall id, status, code, message, now :: CompleteTask(states[j], id, r, status, code, message, now).store == states[j]
  {
    StoppedStaysStopped(states, ops, i, j, r);
  }

  /** Reclaiming a lapsed lease is such a stop: every run of the task that was running before is over after. */
  lemma ReclaimStopsStaleRun(s: Store, op: Op, r: Id)
    requires op.Claim? && Enabled(s, op) && op.pick.Some?
    requires ClaimTask(s, op.owner, op.lease, op.now, op.runId, op.correlationId, op.pick).result.Ok?
    requires Inv(s) && r in s.runs && s.runs[r].taskId == op.pick.value
    ensures Over(Apply(s, op), r)
  {
    assert Candidate(s.tasks, op.dbNow, op.locked, op.pick.value);
    assert GoodRun(s.tasks, s.runs[r]);
  }

  // ----- exactly what ends a running run -----

  /** The guards under which a transaction ends running run r of task id. */
  ghost predicate Ends(s: Store, op: Op, r: Id, id: Id)
    requires id in s.tasks
  {
    match op
    case Complete(task, runId, status, _, _, _) => task == id && runId == r && (Finishing(status) || status == AwaitingApproval)
    case Cancel(task, _, _) => task == id
    case Claim(owner, lease, _, _, runId, correlationId, _, pick) =>
      pick == Some(id) && !Blank(owner) && lease > 0
      && !RunKeyTaken(s.runs, runId, id, s.tasks[id].attempts + 1, correlationId)
    case Supersede(repositoryId, providerId, pullRequest, newTask, _) =>
      newTask in s.tasks && newTask != id && ReviewRow(s.tasks[id].spec, repositoryId, providerId, pullRequest)
    case _ => false
  }

  ghost predicate Live(s: Store, r: Id) {
    Inv(s) && r in s.runs && s.runs[r].taskId in s.tasks && s.runs[r].status == Running
  }

  lemma CancelEnds(s: Store, op: Op, r: Id)
    requires Live(s, r) && op.Cancel?
    ensures Over(Apply(s, op), r) <==> Ends(s, op, r, s.runs[r].taskId)
  {
    assert GoodRun(s.tasks, s.runs[r]);
  }

  lemma CompleteEnds(s: Store, op: Op, r: Id)
    requires Live(s, r) && op.Complete?
    ensures Over(Apply(s, op), r) <==> Ends(s, op, r, s.runs[r].taskId)
  {
    assert GoodRun(s.tasks, s.runs[r]);
  }

  lemma ClaimEnds(s: Store, op: Op, r: Id)
    requires Live(s, r) && op.Claim? && Enabled(s, op)
    ensures Over(Apply(s, op), r) <==> Ends(s, op, r, s.runs[r].taskId)
  {
    assert GoodRun(s.tasks, s.runs[r]);
    assert op.pick.Some? ==> Candidate(s.tasks, op.dbNow, op.locked, op.pick.value);
  }

  lemma SupersedeEnds(s: Store, op: Op, r: Id)
    requires Live(s, r) && op.Supersede?
    ensures Over(Apply(s, op), r) <==> Ends(s, op, r, s.runs[r].taskId)
  {
    var id := s.runs[r].taskId;
    assert GoodRun(s.tasks, s.runs[r]);
    assert GoodRow(id, s.tasks[id]);
  }

  lemma OthersEndNothing(s: Store, op: Op, r: Id)
    requires r in s.runs && s.runs[r].status == Running
    requires op.Create? || op.Insert? || op.Retry? || op.Beat? || op.Append?
    ensures r in Apply(s, op).runs && Apply(s, op).runs[r].status == Running
  {
  }

  /** A running run ends exactly at the completion that carries its identifier, a cancellation of its
      task, a newer review, or a claim of its task. */
  lemma WhyRunsEnd(s: Store, op: Op, r: Id)
    requires Live(s, r) && Enabled(s, op)
    ensures Over(Apply(s, op), r) <==> Ends(s, op, r, s.runs[r].taskId)
  {
    match op
    case Complete(_, _, _, _, _, _) => CompleteEnds(s, op, r);
    case Cancel(_, _, _) => CancelEnds(s, op, r);
    case Claim(_, _, _, _, _, _, _, _) => ClaimEnds(s, op, r);
    case Supersede(_, _, _, _, _) => SupersedeEnds(s, op, r);
    case _ => OthersEndNothing(s, op, r);
  }

  /** No claim takes a task from a worker whose lease has not passed. */
  lemma NoClaimBeforeTheDeadline(s: Store, op: Op, r: Id)
    requires Live(s, r) && op.Claim? && Enabled(s, op) && Over(Apply(s, op), r)
    ensures var t := s.tasks[s.runs[r].taskId]; t.leaseUntil.Some? && t.leaseUntil.value < op.dbNow
  {
    ClaimEnds(s, op, r);
    assert GoodRun(s.tasks, s.runs[r]);
    assert Candidate(s.tasks, op.dbNow, op.locked, op.pick.value);
  }

  lemma LiveAt(states: seq<Store>, ops: seq<Op>, n: nat, r: Id)
    requires Behaviour(states, ops) && Inv(states[0]) && n <= |ops|
    requires forall k :: 0 <= k < n ==> Fenced(ops[k])
    requires r in states[n].runs && states[n].runs[r].status == Running
    ensures Live(states[n], r)
  {
    InvAlong(states, ops, n);
    assert GoodRun(states[n].tasks, states[n].runs[r]);
  }

  /** A lease protects its worker: as long as no such step occurs the run is still running, however
      many transactions of other processes come in between. */
  lemma {:induction false} RunSurvives(states: seq<Store>, ops: seq<Op>, i: nat, j: nat, r: Id)
    requires Behaviour(states, ops) && Inv(states[0]) && i <= j <= |ops|
    requires forall k :: 0 <= k < j ==> Fenced(ops[k])
    requires r in states[i].runs && states[i].runs[r].status == Running
    requires forall k :: i <= k < j && Live(states[k], r) ==> !Ends(states[k], ops[k], r, states[k].runs[r].taskId)
    ensures r in states[j].runs && states[j].runs[r].status == Running
    decreases j
  {
    if i < j {
      RunSurvives(states, ops, i, j - 1, r);
      var s, op := states[j - 1], ops[j - 1];
      assert Step(s, op, states[j]);
      assert Live(s, r) by { LiveAt(states, ops, j - 1, r); }
      assert !Over(Apply(s, op), r) by { WhyRunsEnd(s, op, r); }
      assert r in Apply(s, op).runs by { EveryStepIsAStoreStep(s, op); }
    }
  }

  /** A retried task is eligible from the moment of the retry on, if it has attempts left, and a
      cancelled one is not eligible at any time. */
  lemma RetryAndCancelEligibility(s: Store, id: Id, note: string, now: Time, dbNow: Time)
    ensures var o := RetryTask(s, id, note, now);
            o.result.Ok? ==> (Eligible(o.store.tasks[id], dbNow) <==> now <= dbNow && s.tasks[id].attempts < s.tasks[id].spec.maxAttempts)
    ensures var o := CancelTask(s, id, note, now); o.result.Ok? ==> !Eligible(o.store.tasks[id], dbNow)
  {
  }

  ghost predicate Later(t: Task, t': Task) {
    && t'.spec == t.spec && t.attempts <= t'.attempts
    && (t.status == Superseded ==> t' == t)
    && (t.status == Succeeded ==> t'.status == Succeeded || t'.status == Superseded)
  }

  /** Every stored status change is a path of at most two edges of the state machine. */
  lemma StatusChangesAreShortPaths(states: seq<Store>, ops: seq<Op>, i: nat, id: Id)
    requires Behaviour(states, ops) && i < |ops| && id in states[i].tasks
    ensures id in states[i + 1].tasks && ShortPath(states[i].tasks[id].status, states[i + 1].tasks[id].status)
  {
    assert Step(states[i], ops[i], states[i + 1]);
    EveryStepIsAStoreStep(states[i], ops[i]);
    assert RowStep(states[i].tasks[id], states[i + 1].tasks[id]);
  }

  /** Superseded rows, their superseded-by pointer included, never change again; a succeeded task can
      only become superseded; fixed columns never change and attempts are never given back. */
  lemma {:induction false} RowsOnlyMoveForward(states: seq<Store>, ops: seq<Op>, i: nat, j: nat, id: Id)
    requires Behaviour(states, ops) && i <= j <= |ops| && id in states[i].tasks
    ensures id in states[j].tasks && Later(states[i].tasks[id], states[j].tasks[id])
    decreases j
  {
    if i < j {
      RowsOnlyMoveForward(states, ops, i, j - 1, id);
      assert Step(states[j - 1], ops[j - 1], states[j]);
      EveryStepIsAStoreStep(states[j - 1], ops[j - 1]);
      assert RowStep(states[j - 1].tasks[id], states[j].tasks[id]);
    }
  }

  /** A superseded-by pointer, once set, never changes and never points to its own task. */
  lemma SupersededByIsFinal(states: seq<Store>, ops: seq<Op>, i: nat, j: nat, id: Id)
    requires Behaviour(states, ops) && states[0] == EMPTY && i <= j <= |ops|
    requires forall k :: 0 <= k < i ==> Fenced(ops[k])
    requires id in states[i].tasks && states[i].tasks[id].supersededBy.Some?
    ensures id in states[j].tasks && states[j].tasks[id].supersededBy == states[i].tasks[id].supersededBy
    ensures states[j].tasks[id].supersededBy != Some(id) && states[j].tasks[id].status == Superseded
  {
    EmptyStoreIsGood();
    InvAlong(states, ops, i);
    assert GoodRow(id, states[i].tasks[id]);
    RowsOnlyMoveForward(states, ops, i, j, id);
  }

  // ----- attempt accounting -----

  ghost function AttemptNumbers(s: Store, id: Id): set<int> {
    set r | r in s.runs && s.runs[r].taskId == id :: s.runs[r].attempt
  }

  /** A task's runs carry the numbers 1 to attempts, each exactly once, and never exceed the maximum. */
  lemma AttemptAccounting(states: seq<Store>, ops: seq<Op>, n: nat, id: Id)
    requires Behaviour(states, ops) && states[0] == EMPTY && n <= |ops|
    requires forall i :: 0 <= i < n ==> Fenced(ops[i])
    requires id in states[n].tasks
    ensures var s := states[n];
            && (forall k :: k in AttemptNumbers(s, id) <==> 1 <= k <= s.tasks[id].attempts)
            && s.tasks[id].attempts <= s.tasks[id].spec.maxAttempts
            && (forall k, r, r' :: IsAttempt(s.runs, id, k, r) && IsAttempt(s.runs, id, k, r') ==> r == r')
  {
    EmptyStoreIsGood();
    InvAlong(states, ops, n);
    var s := states[n];
    assert GoodRow(id, s.tasks[id]);
    forall k | k in AttemptNumbers(s, id)
      ensures 1 <= k <= s.tasks[id].attempts
    {
      var r :| r in s.runs && s.runs[r].taskId == id && s.runs[r].attempt == k;
      assert GoodRun(s.tasks, s.runs[r]);
    }
    forall k | 1 <= k <= s.tasks[id].attempts
      ensures k in AttemptNumbers(s, id)
    {
      assert HasAttempt(s.runs, id, k);
      var r :| IsAttempt(s.runs, id, k, r);
    }
  }

  ghost function Budget(tasks: map<Id, Task>): map<Id, int> {
    map id | id in tasks :: tasks[id].spec.maxAttempts - tasks[id].attempts
  }

  /** The sum of remaining attempts over all tasks. */
  ghost function Remaining(s: Store): int {
    Total(Budget(s.tasks))
  }

  ghost function Claims(s: Store, op: Op): nat
    requires Enabled(s, op)
  {
    if op.Claim? && ClaimTask(s, op.owner, op.lease, op.now, op.runId, op.correlationId, op.pick).result.Ok? then 1 else 0
  }

  ghost function InsertGrant(s: Store, spec: TaskSpec, id: Id, dbNow: Time): int {
    if InsertTask(s, spec, id, dbNow).result.Ok? then spec.maxAttempts else 0
  }

  /** The attempts that a step adds to the system: those of a task it creates. */
  ghost function Granted(s: Store, op: Op): int {
    match op
    case Create(input, newId, dbNow) =>
      if ValidKind(input.kind) && !CreateRejected(input) then InsertGrant(s, SpecOf(input), newId, dbNow) else 0
    case Insert(spec, newId, dbNow) => InsertGrant(s, spec, newId, dbNow)
    case _ => 0
  }

  lemma InsertBudget(s: Store, spec: TaskSpec, id: Id, dbNow: Time)
    ensures Remaining(InsertTask(s, spec, id, dbNow).store) == Remaining(s) + InsertGrant(s, spec, id, dbNow)
  {
    var s' := InsertTask(s, spec, id, dbNow).store;
    if s' != s {
      TotalUpdate(Budget(s.tasks), id, spec.maxAttempts);
      assert Budget(s'.tasks) == Budget(s.tasks)[id := spec.maxAttempts];
    }
  }

  lemma RowBudget(tasks: map<Id, Task>, id: Id, row: Task)
    requires id in tasks && row.spec == tasks[id].spec
    ensures Total(Budget(tasks[id := row])) == Total(Budget(tasks)) + tasks[id].attempts - row.attempts
  {
    TotalUpdate(Budget(tasks), id, row.spec.maxAttempts - row.attempts);
    assert Budget(tasks[id := row]) == Budget(tasks)[id := row.spec.maxAttempts - row.attempts];
  }

  lemma ClaimBudget(s: Store, op: Op)
    requires op.Claim? && Enabled(s, op)
    ensures Remaining(Apply(s, op)) == Remaining(s) - Claims(s, op)
  {
    if Claims(s, op) == 1 {
      var id := op.pick.value;
      RowBudget(s.tasks, id, ClaimedRow(s.tasks[id], op.owner, op.lease, op.now));
    }
  }

  lemma CompleteBudget(s: Store, id: Id, runId: Id, status: Status, code: string, message: string, now: Time)
    ensures Remaining(CompleteTask(s, id, runId, status, code, message, now).store) == Remaining(s)
  {
    if id in s.tasks { RowBudget(s.tasks, id, CompletedRow(s.tasks[id], status, message, now)); }
  }

  lemma SameBudget(tasks: map<Id, Task>, tasks': map<Id, Task>)
    requires tasks'.Keys == tasks.Keys
    requires forall id :: id in tasks ==> tasks'[id].spec == tasks[id].spec && tasks'[id].attempts == tasks[id].attempts
    ensures Budget(tasks') == Budget(tasks)
  {
  }

  lemma SupersedeBudget(s: Store, repositoryId: string, providerId: string, pullRequest: int, newTask: Id, dbNow: Time)
    ensures Remaining(SupersedeCodeReviews(s, repositoryId, providerId, pullRequest, newTask, dbNow).store) == Remaining(s)
  {
    SameBudget(s.tasks, SupersedeTasks(s.tasks, repositoryId, providerId, pullRequest, newTask, dbNow));
  }

  lemma UpdateBudget(s: Store, op: Op)
    requires op.Cancel? || op.Retry? || op.Beat? || op.Append?
    ensures Remaining(Apply(s, op)) == Remaining(s)
  {
    if !op.Append? && op.id in s.tasks { RowBudget(s.tasks, op.id, Apply(s, op).tasks[op.id]); }
  }

  lemma StepBudget(s: Store, op: Op)
    requires Enabled(s, op)
    ensures Remaining(Apply(s, op)) + Claims(s, op) == Remaining(s) + Granted(s, op)
  {
    match op
    case Create(input, newId, dbNow) => InsertBudget(s, SpecOf(input), newId, dbNow);
    case Insert(spec, newId, dbNow) => InsertBudget(s, spec, newId, dbNow);
    case Claim(_, _, _, _, _, _, _, _) => ClaimBudget(s, op);
    case Complete(id, runId, status, code, message, now) => CompleteBudget(s, id, runId, status, code, message, now);
    case Supersede(repositoryId, providerId, pullRequest, newTask, dbNow) =>
      SupersedeBudget(s, repositoryId, providerId, pullRequest, newTask, dbNow);
    case _ => UpdateBudget(s, op);
  }

  ghost function ClaimsUpTo(states: seq<Store>, ops: seq<Op>, n: nat): nat
    requires Behaviour(states, ops) && n <= |ops|
  {
    if n == 0 then 0
    else assert Step(states[n - 1], ops[n - 1], states[n]); ClaimsUpTo(states, ops, n - 1) + Claims(states[n - 1], ops[n - 1])
  }

  ghost function GrantsUpTo(states: seq<Store>, ops: seq<Op>, n: nat): int
    requires Behaviour(states, ops) && n <= |ops|
  {
    if n == 0 then 0 else GrantsUpTo(states, ops, n - 1) + Granted(states[n - 1], ops[n - 1])
  }

  /** Conservation of attempts: what was granted is either still remaining or was spent by a claim. */
  lemma {:induction false} AttemptConservation(states: seq<Store>, ops: seq<Op>, n: nat)
    requires Behaviour(states, ops) && n <= |ops|
    ensures Remaining(states[n]) + ClaimsUpTo(states, ops, n) == Remaining(states[0]) + GrantsUpTo(states, ops, n)
  {
    if n > 0 {
      AttemptConservation(states, ops, n - 1);
      assert Step(states[n - 1], ops[n - 1], states[n]);
      StepBudget(states[n - 1], ops[n - 1]);
    }
  }

  lemma RemainingCovers(s: Store, id: Id)
    requires Rows(s.tasks) && id in s.tasks
    ensures Remaining(s) >= s.tasks[id].spec.maxAttempts - s.tasks[id].attempts >= 0
  {
    forall x | x in s.tasks
      ensures Budget(s.tasks)[x] >= 0
    {
      assert GoodRow(x, s.tasks[x]);
    }
    TotalAtLeast(Budget(s.tasks), id);
  }

  ghost predicate NoNewTasks(ops: seq<Op>) {
    forall i :: 0 <= i < |ops| ==> !ops[i].Create? && !ops[i].Insert?
  }

  lemma {:induction false} NoGrants(states: seq<Store>, ops: seq<Op>, n: nat)
    requires Behaviour(states, ops) && n <= |ops| && NoNewTasks(ops)
    ensures GrantsUpTo(states, ops, n) == 0
  {
    if n > 0 { NoGrants(states, ops, n - 1); }
  }

  /** With no new tasks, a behaviour has at most as many successful claims as attempts remained at its
      start: cancel, retry, supersede and lease expiry give none back. */
  lemma ClaimsAreBounded(states: seq<Store>, ops: seq<Op>)
    requires Behaviour(states, ops) && Inv(states[0]) && NoNewTasks(ops)
    requires forall i :: 0 <= i < |ops| ==> Fenced(ops[i])
    ensures ClaimsUpTo(states, ops, |ops|) <= Remaining(states[0])
  {
    var n := |ops|;
    AttemptConservation(states, ops, n);
    NoGrants(states, ops, n);
    InvAlong(states, ops, n);
    if states[n].tasks != map[] {
      var id :| id in states[n].tasks;
      RemainingCovers(states[n], id);
    }
  }

  // ----- claim order and lease recovery -----

  /** A claim with a usable owner, lease and fresh identifiers takes a task that no unlocked eligible
      task precedes, and reports that there is none only when no unlocked task is eligible. The
      constraint on (task, attempt) never rejects it. */
  lemma ClaimOrder(s: Store, op: Op, other: Id)
    requires Inv(s) && op.Claim? && Enabled(s, op) && !Blank(op.owner) && op.lease > 0
    requires op.runId != "" && op.runId !in s.runs
    requires forall r :: r in s.runs ==> s.runs[r].correlationId != op.correlationId
    requires Candidate(s.tasks, op.dbNow, op.locked, other)
    ensures var result := ClaimTask(s, op.owner, op.lease, op.now, op.runId, op.correlationId, op.pick).result;
            && result.Ok?
            && Candidate(s.tasks, op.dbNow, op.locked, result.value.0)
            && result.value.2.attempt == s.tasks[result.value.0].attempts + 1
            && var t, u := s.tasks[result.value.0], s.tasks[other];
               (&& t.spec.priority >= u.spec.priority
                && (t.spec.priority == u.spec.priority ==> t.availableAt <= u.availableAt)
                && (t.spec.priority == u.spec.priority && t.availableAt == u.availableAt ==> t.spec.createdAt <= u.spec.createdAt))
  {
    var id := op.pick.value;
    forall r | r in s.runs && s.runs[r].taskId == id
      ensures s.runs[r].attempt != s.tasks[id].attempts + 1
    {
      assert GoodRun(s.tasks, s.runs[r]);
    }
  }

  /** A running task is eligible exactly at the times after its last lease deadline, and only if it has
      attempts left. */
  lemma LapsedLeaseIsEligible(s: Store, id: Id, dbNow: Time)
    requires Inv(s) && id in s.tasks && s.tasks[id].status == Running
    ensures s.tasks[id].leaseUntil.Some?
    ensures Eligible(s.tasks[id], dbNow) <==> s.tasks[id].leaseUntil.value < dbNow && s.tasks[id].attempts < s.tasks[id].spec.maxAttempts
  {
    assert GoodRow(id, s.tasks[id]);
  }

  ghost predicate OnLastAttempt(s: Store, r: Id) {
    Live(s, r) && s.tasks[s.runs[r].taskId].attempts == s.tasks[s.runs[r].taskId].spec.maxAttempts
  }

  /** On its last attempt a run ends exactly at its own completion, a cancellation or a supersession, and at
      no claim, however long its lease has lapsed. */
  lemma LastAttemptEnds(s: Store, op: Op, r: Id)
    requires OnLastAttempt(s, r) && Enabled(s, op)
    ensures Over(Apply(s, op), r) <==> !op.Claim? && Ends(s, op, r, s.runs[r].taskId)
  {
    WhyRunsEnd(s, op, r);
    if op.Claim? {
      assert op.pick.Some? ==> Candidate(s.tasks, op.dbNow, op.locked, op.pick.value);
    }
  }

  lemma LastAttemptStays(s: Store, s': Store, r: Id)
    requires OnLastAttempt(s, r) && StoreStep(s, s') && Inv(s') && !Over(s', r)
    ensures OnLastAttempt(s', r)
  {
    var id := s.runs[r].taskId;
    assert RunStep(s.runs[r], s'.runs[r]) && RowStep(s.tasks[id], s'.tasks[id]);
    assert GoodRow(id, s'.tasks[id]);
  }

  /** A worker that dies on the last attempt strands its task: through any interleaving of claims, heartbeats
      and retries, and whatever the clock says, it stays running until one of those three. */
  lemma {:induction false} LastAttemptStrands(states: seq<Store>, ops: seq<Op>, i: nat, j: nat, r: Id)
    requires Behaviour(states, ops) && i <= j <= |ops| && OnLastAttempt(states[i], r)
    requires forall k :: i <= k < j ==> Fenced(ops[k])
    requires forall k :: i <= k < j && OnLastAttempt(states[k], r) ==> ops[k].Claim? || !Ends(states[k], ops[k], r, states[k].runs[r].taskId)
    ensures OnLastAttempt(states[j], r)
    decreases j
  {
    if i < j {
      LastAttemptStrands(states, ops, i, j - 1, r);
      var s, op := states[j - 1], ops[j - 1];
      assert Step(s, op, states[j]);
      assert !Over(states[j], r) by { LastAttemptEnds(s, op, r); }
      assert StoreStep(s, states[j]) by { EveryStepIsAStoreStep(s, op); }
      assert Inv(states[j]) by { StepKeepsInv(s, op); }
      LastAttemptStays(s, states[j], r);
    }
  }

  /** A claim attempt that could take task id and is well formed. */
  ghost predicate Offers(s: Store, op: Op, id: Id) {
    && op.Claim? && !Blank(op.owner) && op.lease > 0 && op.runId != "" && op.runId !in s.runs
    && (forall r :: r in s.runs ==> s.runs[r].correlationId != op.correlationId)
    && Candidate(s.tasks, op.dbNow, op.locked, id)
  }

  ghost function OffersUpTo(states: seq<Store>, ops: seq<Op>, n: nat, id: Id): nat
    requires |states| == |ops| + 1 && n <= |ops|
  {
    if n == 0 then 0 else OffersUpTo(states, ops, n - 1, id) + (if Offers(states[n - 1], ops[n - 1], id) then 1 else 0)
  }

  lemma {:induction false} OffersAreClaims(states: seq<Store>, ops: seq<Op>, n: nat, id: Id)
    requires Behaviour(states, ops) && Inv(states[0]) && n <= |ops|
    requires forall i :: 0 <= i < n ==> Fenced(ops[i])
    ensures OffersUpTo(states, ops, n, id) <= ClaimsUpTo(states, ops, n)
  {
    if n > 0 {
      OffersAreClaims(states, ops, n - 1, id);
      assert Step(states[n - 1], ops[n - 1], states[n]);
      if Offers(states[n - 1], ops[n - 1], id) {
        InvAlong(states, ops, n - 1);
        ClaimOrder(states[n - 1], ops[n - 1], id);
      }
    }
  }

  /** No starvation: with no new tasks, a task that still has an attempt left at the end was passed over
      by fewer claims than there were attempts in the system, whatever its priority and whoever died
      holding it. */
  lemma NoStarvation(states: seq<Store>, ops: seq<Op>, id: Id)
    requires Behaviour(states, ops) && Inv(states[0]) && NoNewTasks(ops)
    requires forall i :: 0 <= i < |ops| ==> Fenced(ops[i])
    requires id in states[|ops|].tasks && states[|ops|].tasks[id].attempts < states[|ops|].tasks[id].spec.maxAttempts
    ensures OffersUpTo(states, ops, |ops|, id) < Remaining(states[0])
  {
    var n := |ops|;
    OffersAreClaims(states, ops, n, id);
    AttemptConservation(states, ops, n);
    NoGrants(states, ops, n);
    InvAlong(states, ops, n);
    RemainingCovers(states[n], id);
  }
}
