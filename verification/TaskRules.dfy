/** What each task transaction does, read off the columns of the rows: when it is refused, which rows it
    touches, and what it writes there. */
module TaskRules {
  import opened Base
  import opened Tasks

  /** The task state machine read by target: from which statuses each status can be reached in one edge. */
  lemma EdgesByTarget(from: Status)
    ensures CanTransition(from, Queued) <==> from == AwaitingApproval || from == Failed || from == Cancelled
    ensures CanTransition(from, Running) <==> from == Queued || from == Running
    ensures CanTransition(from, AwaitingApproval) <==> from == Running || from == AwaitingApproval
    ensures CanTransition(from, Succeeded) <==> from == Running || from == AwaitingApproval
    ensures CanTransition(from, Failed) <==> from == Running || from == AwaitingApproval
    ensures CanTransition(from, Cancelled) <==> from == Queued || from == Running || from == AwaitingApproval || from == Failed
    ensures CanTransition(from, Superseded) <==> from != Superseded
  {
  }

  /** Every task but one keeps its row, and no row appears or goes away. */
  ghost predicate OnlyRow(s: Store, s': Store, id: Id) {
    s'.tasks.Keys == s.tasks.Keys && forall x :: x in s.tasks && x != id ==> s'.tasks[x] == s.tasks[x]
  }

  // ----- create -----

  /** No title, no source key, or neither a creator nor a key of the provider's. */
  ghost predicate Incomplete(input: CreateInput) {
    || AllWhite(input.title) || AllWhite(input.sourceKey)
    || (input.createdBy == "" && !exists rest :: input.sourceKey == "github:" + rest)
  }

  /** One new row under an unused identifier and an unused source key. */
  ghost predicate Created(s: Store, s': Store, input: CreateInput, id: Id, dbNow: Time) {
    && id !in s.tasks && id != "" && s'.tasks.Keys == s.tasks.Keys + {id} && s'.runs == s.runs && s'.events == s.events
    && Fresh(s'.tasks[id], input, dbNow)
    && forall x :: x in s.tasks ==> s'.tasks[x] == s.tasks[x] && s.tasks[x].spec.sourceKey != input.sourceKey
  }

  /** When a create is refused, and the row that an accepted one stores under a free source key. */
  lemma CreateExactly(s: Store, input: CreateInput, id: Id, dbNow: Time)
    ensures var o := CreateTask(s, input, id, dbNow);
            && (o.result == Err(InvalidKind) <==> input.kind.OtherKind?)
            && (o.result == Err(MissingFields) <==> !input.kind.OtherKind? && Incomplete(input))
            && (o.result.Err? ==> o.store == s)
            && (o.store != s ==> o.result.Ok? && o.result.value.0 == id && Created(s, o.store, input, id, dbNow))
  {
    assert HasPrefix(input.sourceKey, "github:") <==> exists rest :: input.sourceKey == "github:" + rest by {
      if HasPrefix(input.sourceKey, "github:") { assert input.sourceKey == "github:" + input.sourceKey[7..]; }
    }
    assert Blank(input.title) <==> AllWhite(input.title);
    assert Blank(input.sourceKey) <==> AllWhite(input.sourceKey);
    if CreateTask(s, input, id, dbNow).store != s {
      forall x | x in s.tasks ensures s.tasks[x].spec.sourceKey != input.sourceKey {
        assert !HasSourceKey(s, x, input.sourceKey);
      }
    }
  }

  /** A queued row with no attempt, no lease and no error, available at once. */
  ghost predicate Fresh(t: Task, input: CreateInput, dbNow: Time) {
    && t.spec.kind == input.kind && t.spec.title == Trim(input.title) && t.spec.sourceKey == input.sourceKey
    && t.spec.repositoryId == input.repositoryId && t.spec.repositoryName == input.repositoryName
    && t.spec.payload == input.payload && t.spec.priority == input.priority
    && t.spec.createdBy == input.createdBy && t.spec.createdAt == input.createdAt == t.updatedAt
    && (input.maxAttempts > 0 ==> t.spec.maxAttempts == input.maxAttempts) && (input.maxAttempts <= 0 ==> t.spec.maxAttempts == 3)
    && t.status == Queued && t.attempts == 0 && t.availableAt == dbNow && t.leaseOwner == "" && t.leaseUntil == None
    && t.lastError == "" && t.supersededBy == None && t.startedAt == None && t.finishedAt == None
  }

  // ----- cancel, retry -----

  /** A cancellation succeeds on queued, running, awaiting and failed tasks; it frees the lease and closes
      exactly the runs of the task that are not over. */
  lemma CancelExactly(s: Store, id: Id, note: string, now: Time)
    ensures var o := CancelTask(s, id, note, now);
            && (o.result.Ok? <==> id in s.tasks && var u := s.tasks[id].status;
                 u == Queued || u == Running || u == AwaitingApproval || u == Failed)
            && (o.result.Err? ==> o.store == s)
            && (o.result.Ok? ==>
                 && OnlyRow(s, o.store, id) && o.store.events == s.events
                 && o.store.tasks[id] == s.tasks[id].(status := Cancelled, lastError := note, leaseOwner := "", leaseUntil := None,
                                                      finishedAt := Some(now), updatedAt := now)
                 && o.store.runs.Keys == s.runs.Keys
                 && forall r :: r in s.runs ==>
                      if s.runs[r].taskId == id && (s.runs[r].status == Queued || s.runs[r].status == Running || s.runs[r].status == AwaitingApproval)
                      then o.store.runs[r].status == Cancelled && o.store.runs[r].finishedAt == Some(now)
                      else o.store.runs[r] == s.runs[r])
  {
  }

  /** A retry succeeds on awaiting, failed and cancelled tasks; the task is available from then on with the
      attempts it has left, and no run changes. */
  lemma RetryExactly(s: Store, id: Id, note: string, now: Time)
    ensures var o := RetryTask(s, id, note, now);
            && (o.result.Ok? <==> id in s.tasks && var u := s.tasks[id].status; u == AwaitingApproval || u == Failed || u == Cancelled)
            && (o.result.Err? ==> o.store == s)
            && (o.result.Ok? ==>
                 && OnlyRow(s, o.store, id) && o.store.runs == s.runs && o.store.events == s.events
                 && o.store.tasks[id] == s.tasks[id].(status := Queued, lastError := note, availableAt := now, leaseOwner := "",
                                                      leaseUntil := None, finishedAt := None, updatedAt := now))
  {
  }

  // ----- claim, heartbeat, completion -----

  /** A claim that succeeds took an unlocked row with attempts left that was queued or failed and available,
      or running past its deadline. It leases the row to the owner until now plus the lease, spends one
      attempt, and stores a running run for that attempt. */
  lemma ClaimExactly(s: Store, op: Op)
    requires op.Claim? && Enabled(s, op)
    ensures var o := ClaimTask(s, op.owner, op.lease, op.now, op.runId, op.correlationId, op.pick);
            && (AllWhite(op.owner) ==> o.result == Err(OwnerRequired))
            && (!AllWhite(op.owner) && op.lease <= 0 ==> o.result == Err(LeaseNotPositive))
            && (o.result.Err? ==> o.store == s)
            && (o.result.Ok? ==> !AllWhite(op.owner) && op.lease > 0 && Claimed(s, o.store, op, o.result.value.0))
  {
    assert Blank(op.owner) <==> AllWhite(op.owner);
    if op.pick.Some? { assert Candidate(s.tasks, op.dbNow, op.locked, op.pick.value); }
  }

  ghost predicate Claimed(s: Store, s': Store, op: Op, id: Id)
    requires op.Claim?
  {
    && id in s.tasks && id !in op.locked && OnlyRow(s, s', id) && s'.events == s.events
    && var t, t' := s.tasks[id], s'.tasks[id];
       && t.attempts < t.spec.maxAttempts
       && (t.status == Queued || t.status == Failed || t.status == Running)
       && (t.status == Running ==> t.leaseUntil.Some? && t.leaseUntil.value < op.dbNow)
       && (t.status != Running ==> t.availableAt <= op.dbNow)
       && t'.status == Running && t'.attempts == t.attempts + 1 && t'.leaseOwner == op.owner && t'.leaseUntil == Some(op.now + op.lease)
       && t'.spec == t.spec && t'.availableAt == t.availableAt && t'.updatedAt == op.now
       && (t.startedAt.Some? ==> t'.startedAt == t.startedAt) && (t.startedAt.None? ==> t'.startedAt == Some(op.now))
       && op.runId !in s.runs && s'.runs.Keys == s.runs.Keys + {op.runId}
       && s'.runs[op.runId] == Run(id, t.attempts + 1, Running, op.correlationId, NoError, op.now, None)
       && (forall r :: r in s.runs && !(s.runs[r].taskId == id && s.runs[r].status == Running) ==> s'.runs[r] == s.runs[r])
  }

  /** A heartbeat succeeds exactly for the owner of a running task, and moves its deadline to now plus the lease. */
  lemma HeartbeatExactly(s: Store, id: Id, owner: string, lease: Time, now: Time)
    ensures var o := Heartbeat(s, id, owner, lease, now);
            && (o.result.Ok? <==> lease > 0 && id in s.tasks && s.tasks[id].status == Running && s.tasks[id].leaseOwner == owner)
            && (o.result.Err? ==> o.store == s)
            && (o.result.Ok? ==>
                  && OnlyRow(s, o.store, id) && o.store.runs == s.runs && o.store.events == s.events
                  && o.store.tasks[id] == s.tasks[id].(leaseUntil := Some(now + lease), updatedAt := now + lease))
  {
  }

  predicate Final(status: Status) {
    match status
    case Succeeded | Failed | Cancelled => true
    case _ => false
  }

  /** A completion carrying the identifier of a running run of a running task stores its status on both, frees
      the lease, and marks the end exactly for the statuses that end a task. */
  lemma CompleteExactly(s: Store, id: Id, runId: Id, status: Status, code: string, message: string, now: Time)
    requires id in s.tasks && s.tasks[id].status == Running && runId in s.runs && s.runs[runId].taskId == id && s.runs[runId].status == Running
    requires runId != ""
    ensures var o := CompleteTask(s, id, runId, status, code, message, now);
            && (o.result.Ok? <==> Final(status) || status == AwaitingApproval)
            && (o.result.Err? ==> o.result == Err(InvalidStatus) && o.store == s)
            && (o.result.Ok? ==>
                 && OnlyRow(s, o.store, id) && o.store.events == s.events && o.store.runs.Keys == s.runs.Keys
                 && (forall r :: r in s.runs && r != runId ==> o.store.runs[r] == s.runs[r])
                 && o.store.runs[runId].status == status && o.store.runs[runId].error == Reported(code, message)
                 && o.store.runs[runId].finishedAt == (if Final(status) then Some(now) else s.runs[runId].finishedAt)
                 && o.store.tasks[id] == s.tasks[id].(status := status, lastError := message, leaseOwner := "", leaseUntil := None, updatedAt := now,
                      finishedAt := if Final(status) then Some(now) else s.tasks[id].finishedAt))
  {
  }

  // ----- supersede -----

  /** A review of this pull request: by the connected repository, or, for a row without one, by the
      provider's identifier. */
  ghost predicate IsReviewOf(t: Task, repositoryId: string, providerId: string, pullRequest: int) {
    && t.spec.kind == CodeReview && t.spec.payload.pullRequestNumber == Some(pullRequest)
    && (if t.spec.repositoryId == "" then providerId != "" && t.spec.payload.repositoryId == Some(providerId)
        else t.spec.repositoryId == repositoryId)
  }

  /** The statement supersedes every other review of the pull request that is not superseded, by the new task,
      and leaves every other row alone: other kinds, other pull requests, other repositories, its own task. */
  lemma SupersedeExactly(s: Store, repositoryId: string, providerId: string, pullRequest: int, newTask: Id, dbNow: Time)
    ensures var o := SupersedeCodeReviews(s, repositoryId, providerId, pullRequest, newTask, dbNow);
            && o.store.tasks.Keys == s.tasks.Keys && (o.result.Err? ==> o.store == s) && (newTask in s.tasks ==> o.result.Ok?)
            && forall id :: id in s.tasks ==>
                 if o.result.Ok? && id != newTask && s.tasks[id].status != Superseded && IsReviewOf(s.tasks[id], repositoryId, providerId, pullRequest)
                 then o.store.tasks[id].status == Superseded && o.store.tasks[id].supersededBy == Some(newTask)
                      && o.store.tasks[id].leaseOwner == "" && o.store.tasks[id].leaseUntil == None && o.store.tasks[id].spec == s.tasks[id].spec
                 else o.store.tasks[id] == s.tasks[id]
  {
  }

  /** Only open runs of reviews that this task superseded are closed. */
  lemma SupersededRunsExactly(s: Store, repositoryId: string, providerId: string, pullRequest: int, newTask: Id, dbNow: Time, r: Id)
    requires r in s.runs
    ensures var o := SupersedeCodeReviews(s, repositoryId, providerId, pullRequest, newTask, dbNow);
            && r in o.store.runs
            && if o.result.Ok? && s.runs[r].taskId in o.store.tasks && o.store.tasks[s.runs[r].taskId].spec.kind == CodeReview
                  && o.store.tasks[s.runs[r].taskId].supersededBy == Some(newTask)
                  && (s.runs[r].status == Queued || s.runs[r].status == Running || s.runs[r].status == AwaitingApproval)
               then o.store.runs[r].status == Superseded && o.store.runs[r].finishedAt == Some(dbNow)
               else o.store.runs[r] == s.runs[r]
  {
  }
}
