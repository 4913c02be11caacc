# RepoMender workflow model

A Dafny model of the workflow core of the RepoMender server: the durable task queue and its
workers, the approval gate, the two-stage repair workflow, automation templates, pull request
reviews, the log chunker, the Connect stream follower and the rate limiter.

RepoMender keeps its workflow state in database rows that are changed in short locked
transactions. A transaction is modelled as one atomic step on maps of rows, and any number of
processes interleave their steps in any order. A *behaviour* is a sequence of states linked by
such steps, and the main results hold at every state of every behaviour. The stores themselves
are classes whose methods change their rows statement by statement; each method is proved to be
the step of the same name, so the results about behaviours are results about the methods. Longer
calls (a repair phase, the worker loop, a webhook) are proved to be a named sequence of such steps.

What comes from outside is a parameter: clocks, generated identifiers, the rows that another
transaction has locked, the answers of the agent and of the code host, JSON decoders, redaction,
and the digest of a plan or patch (64 hexadecimal digits; where a result needs it, without collision
among the patches the agent offered so far).

## Layout

- `Base` holds shared vocabulary.
- `Tasks` (rows, transactions, behaviours), `TaskProofs` (the invariant), `TaskTheorems` (the main
  results), `TaskStore` (the store object), `Worker` (the queue loop), `EventLog` (run events),
  `Supersession` (the graph of superseded-by pointers), `TaskRules`.
- `Approvals`, `ApprovalProofs`, `ApprovalStore`, `ApprovalRules`.
- `PatchPolicy` and `PatchRules` (what a patch must satisfy), `Repair` and `RepairRules` (rows, private copies, steps),
  `RepairProofs` (the invariant on every copy), `RepairTheorems` (the publish gate), `RepairRuns`
  (the state machine), `RepairFinality` (when published is final), `RepairRace` (a whole run that
  ends in a race), `RepairDrafts` (how many drafts a repair can have), `RepairService` (consuming an
  approval), `RepairStuck` (a call that is never completed), `Processor` (the phase code).
- `Automations`, `AutomationProofs`, `AutomationTheorems`, `AutomationPolicy`, `AutomationStore`,
  `AutomationRules`.
- `Review`, `ReviewService`; `Chunker`; `ConnectStream`, `ConnectRules`; `RateLimit`.

The modules named `...Rules` say what the transactions and checks mean without using their names: in
columns of the rows, in characters of the texts and in numbers.

## What turned out false, and exactly when it holds

- *A completion never breaks the agreement of tasks and runs.* A completion without a run
  identifier skips the fence. It breaks the agreement if and only if it names a running task and a
  status that completes (`TaskTheorems.UnfencedCompletion`; a reachable case is
  `TaskTheorems.UnfencedCompletionBreaksAgreement`). `RunQueue` always sends one.
- *At most one review of a pull request is live.* Two handlers that looked the repository up
  before and after it was connected can leave two (`Review.LookupRaceLeavesTwoLive`). A behaviour
  keeps at most one live review if and only if each handler that finishes had been superseded
  meanwhile or selects every other live review (`Review.OneLiveExactly`); that follows when all
  handlers resolve the repository alike (`Review.OneLiveReview`).
- *At least one review of a pull request is live.* Two deliveries that both create their task before
  either supersedes end up superseding each other (`Review.MutualSupersession`), and so, without any
  race, does a force push back to an earlier commit (`Review.ForcePushBackLeavesNone`). A step leaves
  a live review if and only if it finishes a handler whose task is still live or its statement spares
  a live review (`Review.SomeLiveExactly`), and the superseded-by pointers stay acyclic if and only if no
  task supersedes the end of its own chain of pointers (`Supersession.AcyclicExactly`), which a task
  that is still live never does.
- *A published repair never changes state again.* A worker whose lease lapsed still writes its old
  copy over the row (`RepairRace.StaleWorkerOverwritesPublished`, from an empty system). From the
  moment it is published the row stays so in every continuation if and only if no actor is drafting,
  coding or publishing it, none is about to store a copy in another state, and no consumption under
  way for it can still succeed (`RepairFinality.PublishedIsFinalExactly`). Phases run one at a time
  guarantee that (`RepairRuns.RepairRefinesStateMachine`). The publish gate needs no such discipline.
- *Replaying a decision returns the same record.* It does while the request is as the decision left
  it; once an approval is consumed or cancelled the same key is a conflict
  (`ApprovalProofs.DecideReplay`; a run, `ApprovalProofs.ReplayAfterConsumption`).
- *One approved patch gives one draft.* Two workers at once, or a crash between publishing and saving,
  give two drafts on one consumed approval (`RepairDrafts.TwoWorkersTwoDrafts`,
  `RepairDrafts.CrashTwoDrafts`); without either there is at most one (`RepairDrafts.AtMostOneDraft`).
- *A dead worker cannot strand its task.* It can on the last attempt: a lapsed running task is
  claimable if and only if attempts are left (`TaskTheorems.LapsedLeaseIsEligible`), and otherwise only
  its own completion, a cancellation or a supersession ends it (`TaskTheorems.LastAttemptStrands`).
- *Replaying an interrupted approval call completes it.* It does when the call was cut off before
  the repair was stored (`RepairService.CrashHealing`, and `RepairService.HealsAmongOthers` when others
  act in between). Cut off between storing the repair and
  re-queueing its task, it never does: every replay answers at once and the task stays where it is
  (`RepairService.CutBeforeRetryNeverRetries`; from empty stores, `RepairStuck.StuckFromEmptyStores`).
  The replay leaves the queue as the uncut call would if and only if the call was cut off before the
  repair was stored or the uncut call's own retry is refused (`RepairService.ReplayCompletesExactly`).

## Where the code and its comments differ

The model follows the code.

- A claim takes a failed task straight to running, which the task state machine reaches only
  through queued; stored changes are therefore paths of at most two edges.
- The worker loop is described as committing one terminal state; it may also commit
  `awaiting_approval`.
- The log splitter is described as splitting only at line boundaries; a line longer than the chunk
  size is cut inside. Its contract says which of the two happens.
- `ConsumeApproval` is described as the only path that resumes the queue; the retry endpoint
  reaches the same store method, and the model lets any process retry.
- The rate limiter can admit more than its limit in a minute that straddles two windows; the model
  proves the exact worst case, one less than twice the limit.

## Model

| member | source | states |
|---|---|---|
| TaskStore.FirstCandidate | server/internal/tasks/store.go:181-188 | the claiming query returns an unlocked eligible row such that no other one has a higher priority, or the same and an earlier availability, or the same again and an earlier creation; and nothing only if there is none |
| TaskStore.PostgreSQLStore.CreateTask | server/internal/tasks/store.go:27-65 | the new rows and the error; a second create with a source key returns the row that owns it and stores nothing |
| TaskStore.PostgreSQLStore.InsertTask | server/internal/automations/store.go:307-315 | the plain insert of a triggered task fails as a whole on a taken identifier or source key |
| TaskStore.PostgreSQLStore.CancelTask | server/internal/tasks/store.go:110-140 | cancels the row and every open run of it, or reports the refused transition and changes nothing |
| TaskStore.PostgreSQLStore.RetryTask | server/internal/tasks/store.go:142-167 | queues the row again without giving attempts back, or changes nothing |
| TaskStore.PostgreSQLStore.ExpireRuns | server/internal/tasks/store.go:199-206 | exactly the running runs of the task become failed |
| TaskStore.PostgreSQLStore.ClaimTask | server/internal/tasks/store.go:169-232 | closes the lapsed run, leases the first eligible row and stores its next run, all or nothing |
| TaskStore.PostgreSQLStore.Heartbeat | server/internal/tasks/store.go:234-248 | only the current lease owner of a running task moves its deadline |
| TaskStore.PostgreSQLStore.CompleteTask | server/internal/tasks/store.go:250-304 | the fenced completion, with its idempotent answers and its errors |
| TaskStore.PostgreSQLStore.SupersedeCodeReviews | server/internal/tasks/store.go:556-580 | every other live review of the pull request and its open runs become superseded, and nothing else changes |
| TaskStore.PostgreSQLStore.AppendRunEvent | server/internal/tasks/store.go:385-416 | appends one event numbered after the highest one |
| TaskProofs.EveryStepIsAStoreStep | server/internal/tasks/store.go:110-304 | no transaction deletes a row or changes fixed columns, statuses follow short paths, runs never start again |
| TaskProofs.StepKeepsInv | server/internal/tasks/store.go:110-304 | every fenced transaction keeps the store invariant |
| TaskRules.EdgesByTarget | server/internal/tasks/types.go:236-258 | for each status, the statuses from which it can be reached in one edge, and no others |
| TaskRules.CreateExactly | server/internal/tasks/store.go:27-65 | which creates are refused, by kind, by the characters of title and key and by creator; and every column of the row that is stored |
| TaskRules.CancelExactly | server/internal/tasks/store.go:110-140 | the statuses that can be cancelled, the row afterwards, and that exactly the open runs of the task are closed |
| TaskRules.RetryExactly | server/internal/tasks/store.go:142-167 | the statuses that can be retried and the row afterwards, with its attempts as they were and no run changed |
| TaskRules.ClaimExactly | server/internal/tasks/store.go:169-232 | what a claimed row looked like, its owner, its deadline of now plus the lease, its next attempt, and the new run |
| TaskRules.HeartbeatExactly | server/internal/tasks/store.go:234-248 | a heartbeat succeeds if and only if the task is running and leased to that owner, and moves the deadline to now plus the lease |
| TaskRules.CompleteExactly | server/internal/tasks/store.go:250-304 | the statuses a running run can be completed with, and every column afterwards |
| TaskRules.SupersedeExactly | server/internal/tasks/store.go:562-568 | every other live review of the pull request becomes superseded by the new task, and every row of another kind, pull request or repository is unchanged |
| TaskRules.SupersededRunsExactly | server/internal/tasks/store.go:569-577 | exactly the open runs of the reviews that task superseded are closed |
| TaskTheorems.TaskRunAgreement | server/internal/tasks/store.go:110-304 | in every reachable store a task is running exactly when it has exactly one running run, of its current attempt, and exactly then has a lease owner and deadline |
| TaskTheorems.UnfencedCompletion | server/internal/tasks/store.go:250-304 | a completion without run identifier leaves every task in agreement with its runs if and only if it does not complete a running task |
| TaskTheorems.UnfencedInvariant | server/internal/tasks/store.go:250-304 | the same condition decides whether it keeps the whole store invariant |
| TaskTheorems.UnfencedCompletionBreaksAgreement | server/internal/tasks/store.go:262-304 | a reachable succeeded task that still has a running run |
| TaskTheorems.StoppedStaysStopped | server/internal/tasks/store.go:197-206 | a run that has stopped is never running again |
| TaskTheorems.Fencing | server/internal/tasks/store.go:250-304 | after a run has stopped, every completion carrying its identifier leaves the whole store unchanged, in every interleaving |
| TaskTheorems.ReclaimStopsStaleRun | server/internal/tasks/store.go:197-206 | claiming a lapsed task stops every earlier run of it |
| TaskTheorems.WhyRunsEnd | server/internal/tasks/store.go:110-304 | a running run ends if and only if the step is the completion that carries its identifier, a cancellation of its task, a newer review of its pull request, or a successful claim of its task |
| TaskTheorems.NoClaimBeforeTheDeadline | server/internal/tasks/store.go:181-206 | a claim that ends a running run is made strictly after its lease deadline |
| TaskTheorems.RunSurvives | server/internal/tasks/store.go:110-304 | through any interleaving without such a step the run is still running |
| TaskTheorems.RetryAndCancelEligibility | server/internal/tasks/store.go:110-188 | a retried task is eligible exactly from the retry on while attempts are left; a cancelled one never is |
| TaskTheorems.StatusChangesAreShortPaths | server/internal/tasks/types.go:236-258 | every stored status change is a path of at most two edges of the state machine |
| TaskTheorems.RowsOnlyMoveForward | server/internal/tasks/types.go:236-258 | fixed columns survive, attempts never fall, superseded is final, and succeeded leads only to superseded |
| TaskTheorems.SupersededByIsFinal | server/internal/tasks/store.go:556-580 | a set superseded-by pointer never changes and never names its own task |
| TaskTheorems.AttemptAccounting | server/internal/tasks/store.go:169-232 | a task's runs carry the attempts 1 to its counter, each once, and the counter never exceeds the maximum |
| TaskTheorems.AttemptConservation | server/internal/tasks/store.go:142-232 | remaining attempts plus claims made equals the initial ones plus those granted by new tasks |
| TaskTheorems.ClaimsAreBounded | server/internal/tasks/store.go:142-232 | without new tasks the successful claims of a behaviour number at most the attempts that remained |
| TaskTheorems.ClaimOrder | server/internal/tasks/store.go:181-191 | if a row is eligible, a claim succeeds, and the row it takes has at least its priority, if equal no later availability, and if equal again no later creation |
| TaskTheorems.LapsedLeaseIsEligible | server/internal/tasks/store.go:181-188 | a running task is eligible if and only if its deadline has passed and attempts are left |
| TaskTheorems.LastAttemptEnds | server/internal/tasks/store.go:110-304 | on the last attempt a run ends if and only if the step is its own completion, a cancellation or a supersession, and never a claim |
| TaskTheorems.LastAttemptStrands | server/internal/tasks/store.go:181-188 | through any interleaving without those three a task on its last attempt stays running, however long its lease has lapsed |
| TaskTheorems.NoStarvation | server/internal/tasks/store.go:169-232 | a task with attempts left can be passed over only fewer times than the attempts that remained |
| Worker.WhileAway | server/internal/worker/queue.go:88-105 | whatever other processes did meanwhile, the invariant holds, stopped runs are still stopped and no run is gone |
| Worker.CompletionEndsTheRun | server/internal/worker/queue.go:101-103 | completing a claimed run leaves it stopped and either succeeds or reports a lost lease |
| Worker.Finish | server/internal/worker/queue.go:100-103 | the store and the error after others acted and the processor's answer was completed under the claimed run's identifier |
| Worker.CompletedIsSafe | server/internal/worker/queue.go:100-103 | that leaves the run stopped unless the answer's status completes nothing, and fails only with a lost lease or that status |
| Worker.Serve | server/internal/worker/queue.go:92-103 | exactly one claim; nothing to claim is no error, and a claimed task is processed and completed, its run reported |
| Worker.RunQueue | server/internal/worker/queue.go:82-106 | the store, the error and the claimed runs are exactly those of the ticks taken one after the other, each with what the claiming query returned at its moment and with others acting in between, until the ticks end or one stops the loop; none of the claimed runs is left running unless a processor's status completes nothing |
| Worker.LoopIsSafe | server/internal/worker/queue.go:88-105 | however others interleave, any number of ticks takes only fenced steps, keeps the store invariant, stops only on the listed errors and leaves no claimed run running |
| Supersession.RelinkExactly | server/internal/tasks/store.go:562-568 | pointing a set of tasks at one task keeps the pointer graph acyclic if and only if that task does not lead into the set |
| Supersession.AcyclicExactly | server/internal/tasks/store.go:556-580 | in every fenced behaviour the superseded-by pointers stay acyclic if and only if no step supersedes, by a task, the end of that task's own chain |
| Supersession.LiveTaskClosesNoLoop | server/internal/tasks/store.go:562-568 | a task that is still live when it supersedes others closes no loop |
| EventLog.LogsOnlyGrow | server/internal/tasks/store.go:385-416 | in every behaviour a run's events are numbered 1 to n without gaps and the log only grows at its end |
| EventLog.ListingIsASuffix | server/internal/tasks/store.go:367-383 | the query after an offset returns exactly the later events in order |
| EventLog.ListingIsExact | server/internal/tasks/store.go:359-383 | an unknown run is refused, and the listing of a known one is exactly its later events in order |
| EventLog.PollsOfABehaviourGrow | server/internal/httpserver/tasks.go:232-258 | a reader that polls at any moments of a behaviour sees a growing log of a run that does not go away |
| EventLog.Send | server/internal/httpserver/tasks.go:238-251 | one pass writes each event, advances the cursor and stops at the first terminal event |
| EventLog.Poll | server/internal/httpserver/tasks.go:232-251 | one turn continues what was sent before |
| EventLog.RunEvents | server/internal/httpserver/tasks.go:232-258 | an unknown run ends the stream with its error and no event; otherwise no error occurs and, over any growing log, what is emitted is each later event exactly once, in order, up to the first terminal one |
| ApprovalStore.PostgreSQLStore.Create | server/internal/approvals/store.go:27-50 | stores a pending request under a new identifier |
| ApprovalStore.PostgreSQLStore.ExpireIfDue | server/internal/approvals/types.go:246-248 | only a pending request whose time has passed expires |
| ApprovalStore.PostgreSQLStore.Decide | server/internal/approvals/store.go:89-134 | replay, conflict, expiry, refusal or decision, with the row it leaves |
| ApprovalStore.PostgreSQLStore.Consume | server/internal/approvals/store.go:136-183 | replay, conflict, expiry, refusal, digest mismatch or consumption, with the row it leaves |
| ApprovalStore.PostgreSQLStore.Cancel | server/internal/approvals/store.go:185-223 | expiry, refusal or cancellation, with the row it leaves |
| ApprovalStore.CreateRequest | server/internal/approvals/service.go:30-46 | validation before the insert |
| ApprovalStore.DecideRequest | server/internal/approvals/service.go:59-93 | an uninterrupted call is its unlocked check followed by its commit |
| ApprovalStore.ConsumeRequest | server/internal/approvals/service.go:95-119 | checks of actor, digest and key before the consumption |
| ApprovalStore.CancelRequest | server/internal/approvals/service.go:121-143 | only the requester or a privileged user reaches the store |
| ApprovalRules.DecisionRefusedExactly | server/internal/approvals/service.go:59-78 | a decision is forbidden if and only if the user is neither admin nor maintainer or the role is not among the stored ones; and what refuses it before that |
| ApprovalRules.DecisionExactly | server/internal/approvals/store.go:89-134 | a decision with a new key takes effect if and only if the request is pending and not expired; the answer in every other state |
| ApprovalRules.ConsumptionRefusedExactly | server/internal/approvals/service.go:95-107 | which consumptions are refused unread, by the characters of actor, digest and key |
| ApprovalRules.ConsumptionExactly | server/internal/approvals/store.go:136-183 | a consumption with a new key takes effect if and only if the request is approved and the digest is the stored one; the answer in every other state |
| ApprovalRules.CancellationRefusedExactly | server/internal/approvals/service.go:121-135 | cancelling is open to the requester and to admins and maintainers, and to nobody else |
| ApprovalRules.CancellationExactly | server/internal/approvals/store.go:185-223 | it takes effect if and only if the request is approved, or pending and not expired |
| ApprovalRules.CreationRefusedExactly | server/internal/approvals/types.go:186-236 | which requests can be created, by the characters and numbers of every field, and the first reason against any other |
| ApprovalRules.EdgesByTarget | server/internal/approvals/types.go:169-180 | for each state, the states from which it can be reached, and no others |
| ApprovalProofs.StepKeepsInv | server/internal/approvals/store.go:89-223 | every step of every call keeps the invariant and changes each row by at most one edge of the state machine |
| ApprovalProofs.RowsOverTime | server/internal/approvals/types.go:169-180 | fixed columns survive, a finished request never changes again, and a decided one keeps its key and its decision |
| ApprovalProofs.ApprovalHistory | server/internal/approvals/service.go:59-119 | a consumed request still has the action, digest and roles it was created with, was consumed with that digest, and was approved before its expiry by an admin or maintainer among its roles, although the role is checked outside the lock |
| ApprovalProofs.ConsumedAtMostOnce | server/internal/approvals/store.go:136-183 | over its whole life a request is consumed by at most one call and approved by at most one |
| ApprovalProofs.ConsumeReplay | server/internal/approvals/store.go:149-154 | at any later moment the same key and digest return the same record, the same key with another digest and any other key are refused, and nothing changes |
| ApprovalProofs.DecideReplay | server/internal/approvals/store.go:102-107 | at any later moment of any behaviour a decision's key changes nothing; it returns the same record if it asks for the same decision and the request is still in that state, and otherwise a conflict |
| ApprovalProofs.ReplayAfterConsumption | server/internal/approvals/store.go:102-107 | a run of create, approve and consume after which the approval, sent again, is a conflict |
| ApprovalProofs.PendingCanBeApproved | server/internal/approvals/service.go:59-93 | every pending request can still be approved by some user before its expiry |
| PatchPolicy.AcceptedExactly | server/internal/repair/types.go:282-329 | the ordered checks accept a patch if and only if every file and every test satisfies the stated conditions and the totals are within bounds |
| PatchRules.AcceptedInCharacters | server/internal/repair/types.go:282-379 | a patch is accepted if and only if, character by character, no path leads out of the repository or into .git, no file is protected, generated or binary, no text shows a secret marker in either case, no command holds a forbidden word, every test passed and all sizes are within their numbers |
| PatchRules.PathRule | server/internal/repair/types.go:340-351 | a path passes if and only if, normalised and trimmed, it is relative, has no empty and no double-dot part, no line break, and does not begin with .git/ |
| PatchRules.SegmentRule | server/internal/repair/types.go:345-349 | splitting at slashes yields exactly the texts that stand between slashes |
| PatchRules.ProtectedRule | server/internal/repair/types.go:353-356 | the protected paths |
| PatchRules.SecretRule | server/internal/repair/types.go:371-379 | a text holds a secret if and only if one of eight markers occurs in it, in either case of letters |
| PatchRules.CommandRule | server/internal/repair/types.go:358-369 | a command passes if and only if it is one line of 1 to 1000 characters without any of five forbidden words |
| PatchRules.PlanAcceptedInCharacters | server/internal/repair/types.go:260-280 | which plans are accepted, in characters and numbers |
| PatchPolicy.CheckPatch | server/internal/repair/types.go:282-329 | the loops compute the first failing check |
| PatchPolicy.CheckFiles | server/internal/repair/types.go:289-311 | the loop over files finds the first fault and the total size |
| PatchPolicy.CheckTests | server/internal/repair/types.go:317-328 | the loop over test results finds the first fault |
| Processor.RepairStore.Create | server/internal/repair/store.go:25-53 | one repair per source key and per task: the existing row is returned for a known key, and invalid input and other key clashes are the errors |
| Processor.RepairStore.Update | server/internal/repair/store.go:94-114 | a blind overwrite of all but the fixed columns |
| RepairRules.UpdateExactly | server/internal/repair/store.go:94-114 | an update writes every mutable column from the copy, keeps the fixed ones, and touches no other row |
| RepairRules.CreateExactly | server/internal/repair/store.go:25-53 | a row is stored if and only if source key, task and identifier are unused, and it starts in planning with nothing else set |
| RepairRules.ValidInfoExactly | server/internal/repair/types.go:237-258 | which issues are valid, by the characters of the columns that are stored |
| RepairRules.DispatchExactly | server/internal/repair/processor.go:49-71 | in which states a row starts a phase, and which one |
| RepairRules.EdgesByTarget | server/internal/repair/types.go:216-235 | for each state, the states from which it can be reached, and no others |
| Processor.AskPlan | server/internal/repair/processor.go:79-105 | what becomes of the agent's plan: a failure code, or a stored plan with its digest and approval |
| Processor.AskPatch | server/internal/repair/processor.go:120-143 | what becomes of the agent's patch |
| Processor.AskProvider | server/internal/repair/processor.go:152-169 | the stored patch is checked again before the provider is called for the repair's repository, installation, base, branch and title with the patch's summary and files; a missing provider, a failing one and a draft are told apart |
| Processor.GeneratePlan | server/internal/repair/processor.go:74-108 | an uninterrupted plan phase is exactly the steps save, draft, save, and its status matches the state it leaves |
| Processor.GeneratePatch | server/internal/repair/processor.go:110-146 | an uninterrupted patch phase is exactly the steps save, code, save, and its status matches the state it leaves |
| Processor.Publish | server/internal/repair/processor.go:148-173 | an uninterrupted publication is exactly the steps publish, save; it succeeds exactly when a draft was made |
| Processor.FailRepair | server/internal/repair/processor.go:220-225 | exactly the step that saves the failed copy, and the status failed |
| Processor.Process | server/internal/repair/processor.go:41-72 | a whole call is exactly the dispatch of the row that was read followed by the steps of that phase; it publishes at most one draft, reports the status of the state it leaves, and writes nothing in a state it has no case for |
| Processor.RunIsABehaviour | server/internal/repair/processor.go:41-72 | the steps of a call form a behaviour, so the results about behaviours hold of it |
| RepairProofs.GoodIsStable | server/internal/repair/store.go:94-114 | what is promised of a copy stays true however stale it gets, because approvals only move forward |
| RepairProofs.ResumedCopy | server/internal/repair/processor.go:59-69 | a failed repair resumes in the phase its approvals vouch for |
| RepairProofs.StepKeepsInv | server/internal/repair/processor.go:41-173 | every step of every actor keeps the promise for all rows, copies and drafts |
| RepairTheorems.PublishGate | server/internal/repair/processor.go:148-173 | in every interleaving, stale workers included, both approvals named in a published copy are consumed, were asked for by the repair's creator for admins and maintainers for one day, and carry the digests of its plan and patch; the patch is publishable character by character and was offered by the agent; the provider was called for the repair's own repository, installation, base and title, on a branch of its own, with the patch's summary and files; if digests do not collide among the patches offered so far, the consumed digest is that of the published patch and of no other of them |
| RepairTheorems.HeldPatchesWereOffered | server/internal/repair/processor.go:110-146 | every patch in a row, a private copy or a draft was offered by the agent in a patch phase |
| RepairTheorems.GateHoldsBeforePublishing | server/internal/repair/processor.go:148-173 | drafts appear one at a time, only in publish steps, and the gate already holds before the step |
| RepairTheorems.ProjectionIsABehaviour | server/internal/repair/service.go:163-205 | the approval rows under a repair behaviour follow a behaviour of the approval gate |
| RepairTheorems.PublishedWasApprovedTwice | server/internal/repair/service.go:163-205 | behind every draft are a plan request and a patch request, each approved in time by an eligible user and consumed with its digest |
| RepairTheorems.BaseCommitNeverChanges | server/internal/repair/store.go:94-114 | no interleaving of blind writes changes a repair's base commit |
| RepairRuns.RepairRefinesStateMachine | server/internal/repair/types.go:216-235 | with phases run one at a time every stored change is a path of at most two edges and published is final |
| RepairFinality.PublishedIsFinalExactly | server/internal/repair/processor.go:41-173 | a published repair of a reachable state stays published in every continuation if and only if no actor of that state can still bring a copy of it to a save in another state |
| RepairFinality.StepKeepsCalm | server/internal/repair/processor.go:41-72 | while a repair is published and unthreatened no step lets anyone begin on it or overwrite it |
| RepairFinality.ThreatOverwrites | server/internal/repair/service.go:163-205 | each threatening actor has a continuation that overwrites the row, with an approval first where its consumption waits for one |
| RepairRuns.PublishThenSave | server/internal/repair/processor.go:159-172 | publishing and storing the outcome overwrites whatever the row has become |
| RepairRuns.SecondWorkerOverwrites | server/internal/repair/processor.go:148-173 | two workers on one publishable repair: the one whose publication fails turns the published row into a failed one |
| RepairRace.SmallPatchIsAcceptable | server/internal/repair/types.go:282-329 | some patch passes every check, for every base commit |
| RepairRace.StaleWorkerOverwritesPublished | server/internal/repair/processor.go:41-173 | from an empty system and for every valid issue, a run through both stages in which the repair is published and then failed |
| RepairDrafts.AtMostOneDraft | server/internal/repair/processor.go:148-173 | with phases one at a time and no crash between a publication and its save, a repair has at most one draft, however often it is retried |
| RepairDrafts.TwoWorkersTwoDrafts | server/internal/repair/processor.go:148-173 | from an empty system, two workers open two drafts on one consumed approval |
| RepairDrafts.CrashTwoDrafts | server/internal/repair/processor.go:159-172 | from an empty system, one worker at a time, a crash after publishing leads to a second draft |
| RepairService.CrashHealing | server/internal/repair/service.go:179-205 | a call cut off after the consumption, replayed with its key, ends where the uncut call would have, with the same answer |
| RepairService.CallIsSteps | server/internal/repair/service.go:163-205 | a call is the workflow's steps start, consume and save among any other actors; one cut off after the consumption has a crash in place of the save |
| RepairService.HealsAmongOthers | server/internal/repair/service.go:179-205 | at any later moment of any behaviour at which the repair still awaits the approval, a call with the same digest and key changes no request and goes on to store the repair and re-queue its task |
| RepairService.OtherKeyNeverHeals | server/internal/repair/service.go:189-192 | with any other key the replay is refused and changes nothing |
| RepairService.CutBeforeRetryNeverRetries | server/internal/repair/service.go:179-204 | a call cut off before re-queueing the task is never completed by a replay: every replay changes nothing, and where the uncut call would have succeeded the task queue differs from its |
| RepairService.ReplayCompletesExactly | server/internal/repair/service.go:179-205 | replaying an interrupted call leaves the task queue as the uncut call would if and only if it was cut off before the repair was stored or the uncut call's retry is refused |
| RepairStuck.StuckFromEmptyStores | server/internal/repair/service.go:196-204 | from empty stores, a call cut off before re-queueing whose replay leaves the task awaiting approval, where the uncut call would have queued it |
| RepairService.WholeCallRequeues | server/internal/repair/service.go:193-205 | an uncut call that succeeds has stored the approved state and queued the task |
| RepairService.ConsumeAndResume | server/internal/repair/service.go:163-205 | the code consumes, stores and re-queues in that order, with every early answer and error |
| RepairService.StoreAndRetry | server/internal/repair/service.go:196-204 | the part after the consumption |
| AutomationStore.PostgreSQLStore.Create | server/internal/automations/store.go:29-60 | stores a valid configuration under a free name as a disabled draft of revision one |
| AutomationStore.PostgreSQLStore.UpdateDraft | server/internal/automations/store.go:91-140 | replaces the configuration of a disabled template at the expected revision only |
| AutomationStore.PostgreSQLStore.LockTemplate | server/internal/automations/store.go:396-409 | a positive expected revision must be the current one |
| AutomationStore.PostgreSQLStore.PublishLocked | server/internal/automations/store.go:411-435 | one new version row and one new revision |
| AutomationStore.PostgreSQLStore.Publish | server/internal/automations/store.go:142-166 | freezes a disabled template's configuration |
| AutomationStore.PostgreSQLStore.SetEnabled | server/internal/automations/store.go:168-192 | switches a published template, with a version row for each switch |
| AutomationStore.PostgreSQLStore.FindRun | server/internal/automations/store.go:260-274 | finds the run of a template and trigger key if there is one |
| AutomationStore.PostgreSQLStore.CountActive | server/internal/automations/store.go:275-280 | counts exactly the runs whose task is active |
| AutomationStore.PostgreSQLStore.InsertRun | server/internal/automations/store.go:307-324 | the task and the run are stored together or not at all |
| AutomationStore.PostgreSQLStore.Trigger | server/internal/automations/store.go:244-330 | refusals in order, the existing pair for a known key, or a new task and run |
| AutomationRules.TriggerExactly | server/internal/automations/store.go:244-287 | the answer of every trigger, in order: unknown, disabled, not wanted by provider, repository, event, action and branch, known key, limit reached, no actor |
| AutomationRules.TriggerStores | server/internal/automations/store.go:298-330 | every column of the task and of the run that a trigger stores, with the priority and attempts of the kind |
| AutomationRules.CreateStores | server/internal/automations/store.go:29-60 | every column of a new template |
| AutomationRules.RunsWereWanted | server/internal/automations/types.go:259-282 | behind every run is a trigger whose provider, repository, event, action and branch its frozen configuration lists |
| AutomationProofs.StepKeeps | server/internal/automations/store.go:91-330 | every step keeps the invariant, and versions and runs are only ever added; a run row holds no branch, so which branch was accepted is stated over behaviours |
| AutomationTheorems.PinnedVersions | server/internal/automations/store.go:411-435 | version rows are exactly 1 to the current version and never change, an enabled template equals its newest one, and every run was stored by a trigger, at a step that can be named, which the enabled row it points to accepted, branch included |
| AutomationTheorems.RunsWereAccepted | server/internal/automations/store.go:254-259 | for every run, the trigger step that stored it, and that the version row it names, unchanged since, accepts exactly that trigger |
| AutomationTheorems.RevisionsNeverRepeat | server/internal/automations/store.go:396-435 | revisions never fall, and equal revisions mean an unchanged template |
| AutomationTheorems.NoLostUpdate | server/internal/automations/store.go:104-118 | a change sent with a revision takes effect only on the template that was read |
| AutomationTheorems.NoDoubleTrigger | server/internal/automations/store.go:244-274 | a template and trigger key have at most one run; redelivery returns it and changes nothing |
| AutomationTheorems.OneTaskReactivates | server/internal/tasks/store.go:142-212 | a transaction takes at most one failed or cancelled task back to active |
| AutomationTheorems.ConcurrencyBound | server/internal/automations/store.go:275-283 | a template's active tasks number at most its largest limit so far plus the re-activations so far |
| AutomationTheorems.LimitHoldsWithoutReactivation | server/internal/automations/store.go:275-283 | without re-activation the limit is never exceeded |
| AutomationPolicy.CheckScope | server/internal/automations/types.go:161-174 | one pass with a seen-set accepts exactly the clean lists without duplicates |
| AutomationPolicy.CheckActions | server/internal/automations/types.go:221-234 | the same for the actions of a filter |
| AutomationPolicy.CheckFilter | server/internal/automations/types.go:207-241 | the event of the kind, its actions and its branches |
| AutomationPolicy.Validate | server/internal/automations/types.go:148-205 | the whole configuration check |
| AutomationPolicy.StoredIsValid | server/internal/automations/store.go:29-60 | the trimmed form that is stored is valid again |
| AutomationPolicy.PublishNeverInvalid | server/internal/automations/store.go:142-166 | every stored template is valid, so publishing never fails for its configuration |
| AutomationPolicy.AtMostTwentyActive | server/internal/automations/types.go:192-194 | no template has more than twenty active tasks beyond those re-activated |
| Review.FinishKeepsOneLive | server/internal/tasks/store.go:556-580 | a finishing handler keeps at most one live review if and only if its own task was superseded or its statement selects every other live one |
| Review.FinishLeavesSomeLive | server/internal/tasks/store.go:562-568 | a finishing handler leaves a live review if and only if its own task is still live or its statement spares another |
| Review.SomeLiveExactly | server/internal/tasks/store.go:556-580 | at every step of every behaviour a live review is left if and only if the step finishes a handler whose task is still live or some live review is not selected by its statement |
| Review.ForcePushBackLeavesNone | server/internal/review/types.go:207-211 | three handlers one after the other, for a commit, another and the first again, leave no live review |
| Review.MutualSupersession | server/internal/review/service.go:52-60 | from the empty store, two deliveries for one pull request leave both reviews superseded, each by the other |
| Review.OneLiveReview | server/internal/review/service.go:29-62 | under every interleaving of handlers that resolve the repository alike, at most one finished review is not superseded |
| Review.OneLiveExactly | server/internal/review/service.go:29-62 | without that assumption, at most one is live throughout if and only if every finishing step is safe |
| Review.LookupRaceLeavesTwoLive | server/internal/review/service.go:41-47 | a lookup made before the repository was connected leaves two live reviews |
| ReviewService.HandleWebhook | server/internal/review/service.go:29-62 | store and answer on every branch: ignored, invalid, failed lookup, refused create, failed supersede, and success with the task that owns the event's source key |
| ReviewService.SupersedingHandles | server/internal/review/service.go:56-61 | a success has superseded exactly the other reviews selected after whatever others did in between, and changed no other row |
| ReviewService.HandlingIsItsSteps | server/internal/review/service.go:52-60 | with nobody in between, a handler is its create step followed by its supersede step |
| ReviewService.HandlerTouchesItsPullRequestOnly | server/internal/tasks/store.go:562-568 | a handler changes no task of another kind, pull request or repository |
| ReviewService.HandlerTaskColumns | server/internal/review/types.go:196-213 | the columns of the task that a new delivery creates |
| ReviewService.OwnerIsTheCreatedTask | server/internal/tasks/store.go:27-65 | in a reachable store the owner of the source key is the task that the create step returned |
| Chunker.RedactAndChunkLogs | server/internal/diagnosis/types.go:175-229 | when each error is returned; otherwise the redacted and normalised log is rebuilt exactly from the chunks and the number of lines, every chunk is non-empty, within the size and spans the lines it claims, ranges never go backwards, a line is cut only into full-sized pieces, and a chunk ends early only when the next line does not fit |
| Chunker.ChunkLines | server/internal/diagnosis/types.go:186-229 | the same for a list of lines |
| Chunker.AddLine | server/internal/diagnosis/types.go:199-226 | one turn of the loop keeps what has been tiled so far |
| Chunker.CutPieces | server/internal/diagnosis/types.go:208-218 | cutting an oversized line loses nothing and leaves a rest that fits |
| Chunker.EvidencePointsBack | server/internal/diagnosis/types.go:191-198 | every chunk occurs in the rebuilt text with exactly the lines before it that its start line says |
| Chunker.NormaliseReplaces | server/internal/diagnosis/types.go:186 | each CR LF becomes one LF, and what stands before and after it is normalised by itself |
| Chunker.NormaliseKeeps | server/internal/diagnosis/types.go:186 | a text without CR LF is left alone |
| ConnectStream.EncodeConnectFrame | server/internal/execution/agentcompose/execution.go:503-509 | fills the buffer with flag, big-endian length and payload |
| ConnectStream.FrameRoundTrip | server/internal/execution/agentcompose/execution.go:503-525 | a frame is read back if and only if it is within the size limit, whatever follows it |
| ConnectStream.ReadingInvertsEncoding | server/internal/execution/agentcompose/execution.go:511-525 | whatever is read as a frame is the encoding of that frame |
| ConnectStream.StreamRoundTrip | server/internal/execution/agentcompose/execution.go:503-525 | any list of frames within the limit is read back as the same list |
| ConnectStream.ReadConnectFrame | server/internal/execution/agentcompose/execution.go:511-525 | the frame and the rest of the stream, or which error a short, oversized or broken stream gives |
| ConnectStream.HandleFrame | server/internal/execution/agentcompose/execution.go:237-268 | what one frame does to the stream |
| ConnectRules.EventShows | server/internal/execution/agentcompose/execution.go:463-483 | log text is shown redacted only, a final chunk makes the terminal event, and everything else shows the run's status |
| ConnectRules.StatusShows | server/internal/execution/agentcompose/execution.go:485-487 | a status loses its prefix and its capitals and nothing else |
| ConnectRules.CodesMean | server/internal/execution/agentcompose/execution.go:417-432 | the error that each protocol code stands for |
| ConnectStream.FollowerSucceedsExactly | server/internal/execution/agentcompose/execution.go:222-270 | the follower succeeds if and only if the bytes are valid data frames up to the end of input or an error-free end-stream frame and a final chunk was seen; its events are the kept frames in order |
| ConnectStream.EventsAreKeptFrames | server/internal/execution/agentcompose/execution.go:222-270 | on every stream, good or not, the events sent are the kept ones of the data frames it begins with |
| ConnectStream.CancelledFollowsAPrefix | server/internal/execution/agentcompose/execution.go:223-268 | a context that outlives every read and send changes nothing; one that ends earlier stops the follower with its own error after a prefix of the events |
| ConnectStream.FollowEvents | server/internal/execution/agentcompose/execution.go:188-270 | the loop sends those events and returns that result, with or without a context that ends |
| RateLimit.Limiter.constructor | server/internal/ratelimit/limiter.go:30-35 | a limit that is not positive becomes 120 |
| RateLimit.Limiter.Request | server/internal/ratelimit/limiter.go:60-76 | decision, retry seconds and new window |
| RateLimit.Limiter.Sweep | server/internal/ratelimit/limiter.go:95-106 | drops exactly the windows that are over |
| RateLimit.SweepsChangeNoDecision | server/internal/ratelimit/limiter.go:93-106 | runs with the same requests decide alike wherever sweeps occur |
| RateLimit.AdmittedBelowTwiceTheLimit | server/internal/ratelimit/limiter.go:60-76 | any half-open interval of one window length admits at most twice the limit less one, per client |
| RateLimit.BoundIsReached | server/internal/ratelimit/limiter.go:60-76 | for every limit some run reaches that bound |
| RateLimit.RetryAfterIsLeast | server/internal/ratelimit/limiter.go:68-71 | a refusal names the least whole number of seconds, 1 to 60, after which the client's next request is admitted, whatever others do meanwhile |
| RateLimit.WindowsStartInThePast | server/internal/ratelimit/limiter.go:60-76 | in every run with a clock that does not go back, no window starts in the future |

## Left out

- SQL, row scanning, connection failures and identifier generation; an identifier that collides is an error of the step.
- Trimming is ASCII white space on byte strings; Unicode spaces and case folding are not modelled.
- Free-text columns that no decision reads (failure messages, audit entries, external run identifiers, created-by of versions) are dropped; error messages are reduced to their kind.
- Retention pruning of run events and of old rows; with it the event log is not gap-free.
- Template deletion and what it removes with it.
- Listing and paging queries other than the event listing; findings, evidence and audit rows.
- Creating repairs from issues and diagnoses beyond the insert, the binding of automation tasks, and the checks of an issue's provider, number and state, which no stored column keeps.
- The agent exchange inside a repair phase is one answer; its run events and its own failures appear only as a failure code.
- A repair whose stored plan or patch is not valid JSON, and a digest that cannot be computed; both need a row the program did not write.
- `ConsumeApproval` with a phase that is neither plan nor patch, which is refused before anything is read further.
- The UTF-8 test of a patch's texts, which a decoded JSON string always passes.
- Regular-expression redaction, the UTF-8 test of a log and all JSON decoding, which are parameters.
- The HTTP exchange around the stream follower, and the creation time of an event.
- HTTP handlers, sessions, OAuth, encryption, the code host adapters, metrics, telemetry, configuration and the web interface.
- Clock arithmetic that saturates after centuries, and clocks that go back, for the rate limiter.
- Worker.RunQueue: the endless loop is a loop over a finite list of ticks of any length, and cancellation is the end of that list.
- EventLog.RunEvents: the deadline and the disconnect of a reader are the end of a finite list of polls.
