/** The durable task queue: task rows, run rows and run events. Every store
    transaction is one atomic step, a function from the old rows to the new rows
    and the value returned to the caller. Notes, codes and messages are the trimmed
    texts that are stored. Clocks, generated identifiers and the
    rows that SKIP LOCKED passes over are arguments. */
module Tasks {
  import opened Base

  datatype Kind = CodeReview | CIDiagnosis | IssueRepair | OtherKind(name: string)

  datatype Status = Queued | Running | AwaitingApproval | Succeeded | Failed | Cancelled | Superseded

  datatype Error =
    | InvalidKind | MissingFields | InvalidStatus | InvalidTransition(from: Status, to: Status)
    | TaskNotFound | RunNotFound | LeaseLost | OwnerRequired | LeaseNotPositive | StorageError

  /** The two payload members that queries look into, and the rest. */
  datatype Payload = Payload(repositoryId: Option<string>, pullRequestNumber: Option<int>, other: string)

  /** The columns of a task row that no statement ever updates. */
  datatype TaskSpec = TaskSpec(
    kind: Kind, title: string, repositoryId: string, repositoryName: string, sourceKey: string,
    payload: Payload, priority: int, maxAttempts: int, createdBy: string, createdAt: Time)

  datatype Task = Task(
    spec: TaskSpec, status: Status, attempts: int, availableAt: Time, leaseOwner: string,
    leaseUntil: Option<Time>, lastError: string, supersededBy: Option<Id>, updatedAt: Time,
    startedAt: Option<Time>, finishedAt: Option<Time>)

  /** The error code and message of a run: the fixed pairs the store writes, or the worker's. */
  datatype RunError =
    | NoError | CancelledError(note: string) | LeaseExpired | SupersededError | Reported(code: string, message: string)

  datatype Run = Run(
    taskId: Id, attempt: int, status: Status, correlationId: string, error: RunError,
    createdAt: Time, finishedAt: Option<Time>)

  datatype EventInput = EventInput(kind: string, stream: string, message: string, payload: string, terminal: bool)

  datatype Event = Event(sequence: int, input: EventInput, createdAt: Time)

  datatype Store = Store(tasks: map<Id, Task>, runs: map<Id, Run>, events: map<Id, seq<Event>>)

  const EMPTY := Store(map[], map[], map[])

  datatype Outcome<+T> = Outcome(store: Store, result: Result<T, Error>)

  // ----- state machine (types.go) -----

  predicate ValidKind(kind: Kind) { !kind.OtherKind? }

  predicate CanTransition(from: Status, to: Status) {
    if from == to then from == Running || from == AwaitingApproval
    else
      match from
      case Queued => to == Running || to == Cancelled || to == Superseded
      case Running => to == AwaitingApproval || to == Succeeded || to == Failed || to == Cancelled || to == Superseded
      case AwaitingApproval => to == Queued || to == Succeeded || to == Failed || to == Cancelled || to == Superseded
      case Failed => to == Queued || to == Cancelled || to == Superseded
      case Cancelled => to == Queued || to == Superseded
      case Succeeded => to == Superseded
      case Superseded => false
  }

  /** The statuses of a run that cancel and supersede may still close. */
  predicate Open(status: Status) {
    status == Queued || status == Running || status == AwaitingApproval
  }

  // ----- create -----

  datatype CreateInput = CreateInput(
    kind: Kind, title: string, repositoryId: string, repositoryName: string, sourceKey: string,
    payload: Payload, priority: int, maxAttempts: int, createdBy: string, createdAt: Time)

  predicate HasSourceKey(s: Store, id: Id, key: string) {
    id in s.tasks && s.tasks[id].spec.sourceKey == key
  }

  ghost predicate SourceKeyTaken(s: Store, key: string) {
    exists id :: HasSourceKey(s, id, key)
  }

  /** INSERT INTO tasks with the column defaults of the schema. */
  function NewTask(spec: TaskSpec, dbNow: Time): Task {
    Task(spec, Queued, 0, dbNow, "", None, "", None, spec.createdAt, None, None)
  }

  /** The row is stored unless its primary key or its source key is taken. */
  ghost function InsertTask(s: Store, spec: TaskSpec, id: Id, dbNow: Time): Outcome<Task> {
    if id == "" || id in s.tasks || SourceKeyTaken(s, spec.sourceKey) || spec.maxAttempts <= 0 then
      Outcome(s, Err(StorageError))
    else
      Outcome(s.(tasks := s.tasks[id := NewTask(spec, dbNow)]), Ok(NewTask(spec, dbNow)))
  }

  predicate CreateRejected(input: CreateInput) {
    Blank(input.title) || Blank(input.sourceKey) ||
    (input.createdBy == "" && !HasPrefix(input.sourceKey, "github:"))
  }

  function SpecOf(input: CreateInput): TaskSpec {
    TaskSpec(input.kind, Trim(input.title), input.repositoryId, input.repositoryName, input.sourceKey, input.payload,
             input.priority, if input.maxAttempts <= 0 then 3 else input.maxAttempts, input.createdBy, input.createdAt)
  }

  /** INSERT ... ON CONFLICT (source_key) returns the row that owns the key. */
  ghost function CreateTask(s: Store, input: CreateInput, id: Id, dbNow: Time): Outcome<(Id, Task)> {
    if !ValidKind(input.kind) then Outcome(s, Err(InvalidKind))
    else if CreateRejected(input) then Outcome(s, Err(MissingFields))
    else if SourceKeyTaken(s, input.sourceKey) then
      var owner :| HasSourceKey(s, owner, input.sourceKey);
      Outcome(s, Ok((owner, s.tasks[owner])))
    else
      var inserted := InsertTask(s, SpecOf(input), id, dbNow);
      match inserted.result
      case Ok(row) => Outcome(inserted.store, Ok((id, row)))
      case Err(e) => Outcome(s, Err(e))
  }

  // ----- cancel, retry -----

  function CancelledRow(t: Task, note: string, now: Time): Task {
    t.(status := Cancelled, lastError := note, leaseOwner := "", leaseUntil := None,
       finishedAt := Some(now), updatedAt := now)
  }

  /** UPDATE runs ... WHERE task_id = id AND status is still open. */
  function CancelRuns(runs: map<Id, Run>, id: Id, note: string, now: Time): map<Id, Run> {
    map r | r in runs ::
      if runs[r].taskId == id && Open(runs[r].status) then
        runs[r].(status := Cancelled, error := CancelledError(note), finishedAt := Some(now))
      else runs[r]
  }

  function CancelTask(s: Store, id: Id, note: string, now: Time): Outcome<Task> {
    if id !in s.tasks then Outcome(s, Err(TaskNotFound))
    else if !CanTransition(s.tasks[id].status, Cancelled) then
      Outcome(s, Err(InvalidTransition(s.tasks[id].status, Cancelled)))
    else
      var row := CancelledRow(s.tasks[id], note, now);
      Outcome(s.(tasks := s.tasks[id := row], runs := CancelRuns(s.runs, id, note, now)), Ok(row))
  }

  function RetriedRow(t: Task, note: string, now: Time): Task {
    t.(status := Queued, lastError := note, availableAt := now,
       leaseOwner := "", leaseUntil := None, finishedAt := None, updatedAt := now)
  }

  function RetryTask(s: Store, id: Id, note: string, now: Time): Outcome<Task> {
    if id !in s.tasks then Outcome(s, Err(TaskNotFound))
    else if !CanTransition(s.tasks[id].status, Queued) then
      Outcome(s, Err(InvalidTransition(s.tasks[id].status, Queued)))
    else
      var row := RetriedRow(s.tasks[id], note, now);
      Outcome(s.(tasks := s.tasks[id := row]), Ok(row))
  }

  // ----- claim -----

  predicate Eligible(t: Task, dbNow: Time) {
    && (((t.status == Queued || t.status == Failed) && t.availableAt <= dbNow)
        || (t.status == Running && t.leaseUntil.Some? && t.leaseUntil.value < dbNow))
    && t.attempts < t.spec.maxAttempts
  }

  /** ORDER BY priority DESC, available_at, created_at: t does not come after u. */
  predicate NotAfter(t: Task, u: Task) {
    t.spec.priority > u.spec.priority
    || (t.spec.priority == u.spec.priority
        && (t.availableAt < u.availableAt
            || (t.availableAt == u.availableAt && t.spec.createdAt <= u.spec.createdAt)))
  }

  predicate Candidate(tasks: map<Id, Task>, dbNow: Time, locked: set<Id>, id: Id) {
    id in tasks && id !in locked && Eligible(tasks[id], dbNow)
  }

  /** What the claiming query may return: a first unlocked candidate, or nothing when there is none. */
  ghost predicate ValidPick(tasks: map<Id, Task>, dbNow: Time, locked: set<Id>, pick: Option<Id>) {
    match pick
    case None => forall id :: !Candidate(tasks, dbNow, locked, id)
    case Some(id) =>
      && Candidate(tasks, dbNow, locked, id)
      && forall other :: Candidate(tasks, dbNow, locked, other) ==> NotAfter(tasks[id], tasks[other])
  }

  function ExpireRuns(runs: map<Id, Run>, id: Id, now: Time): map<Id, Run> {
    map r | r in runs ::
      if runs[r].taskId == id && runs[r].status == Running then
        runs[r].(status := Failed, error := LeaseExpired, finishedAt := Some(now))
      else runs[r]
  }

  function ClaimedRow(t: Task, owner: string, lease: Time, now: Time): Task {
    t.(status := Running, attempts := t.attempts + 1, leaseOwner := owner, leaseUntil := Some(now + lease),
       startedAt := if t.startedAt.Some? then t.startedAt else Some(now), updatedAt := now)
  }

  function NewRun(id: Id, attempt: int, correlationId: string, now: Time): Run {
    Run(id, attempt, Running, correlationId, NoError, now, None)
  }

  /** The uniqueness constraints of the runs table. */
  predicate RunKeyTaken(runs: map<Id, Run>, runId: Id, id: Id, attempt: int, correlationId: string) {
    || runId == "" || runId in runs
    || exists r :: r in runs && (runs[r].correlationId == correlationId || (runs[r].taskId == id && runs[r].attempt == attempt))
  }

  /** The lapsed run is closed before its replacement is stored. */
  function ClaimedRuns(s: Store, id: Id, now: Time, runId: Id, correlationId: string): map<Id, Run>
    requires id in s.tasks
  {
    var runs := if s.tasks[id].status == Running then ExpireRuns(s.runs, id, now) else s.runs;
    runs[runId := NewRun(id, s.tasks[id].attempts + 1, correlationId, now)]
  }

  /** The rows after a successful claim of task id. */
  function ClaimEffect(s: Store, owner: string, lease: Time, now: Time, runId: Id, correlationId: string, id: Id): Store
    requires id in s.tasks
  {
    Store(s.tasks[id := ClaimedRow(s.tasks[id], owner, lease, now)], ClaimedRuns(s, id, now, runId, correlationId), s.events)
  }

  function ClaimTask(s: Store, owner: string, lease: Time, now: Time, runId: Id, correlationId: string,
                     pick: Option<Id>): Outcome<(Id, Task, Run)>
    requires pick.Some? ==> pick.value in s.tasks
  {
    if Blank(owner) then Outcome(s, Err(OwnerRequired))
    else if lease <= 0 then Outcome(s, Err(LeaseNotPositive))
    else if pick.None? then Outcome(s, Err(TaskNotFound))
    else
      var id := pick.value;
      var attempt := s.tasks[id].attempts + 1;
      if RunKeyTaken(s.runs, runId, id, attempt, correlationId) then Outcome(s, Err(StorageError))
      else
        Outcome(ClaimEffect(s, owner, lease, now, runId, correlationId, id),
                Ok((id, ClaimedRow(s.tasks[id], owner, lease, now).(startedAt := Some(now)),
                    NewRun(id, attempt, correlationId, now))))
  }

  // ----- heartbeat, complete -----

  /** Sets updated_at to the new deadline, as the statement does. */
  function Heartbeat(s: Store, id: Id, owner: string, lease: Time, now: Time): Outcome<()> {
    if lease <= 0 then Outcome(s, Err(LeaseNotPositive))
    else if id in s.tasks && s.tasks[id].status == Running && s.tasks[id].leaseOwner == owner then
      Outcome(s.(tasks := s.tasks[id := s.tasks[id].(leaseUntil := Some(now + lease), updatedAt := now + lease)]), Ok(()))
    else Outcome(s, Err(LeaseLost))
  }

  predicate Finishing(status: Status) {
    status == Succeeded || status == Failed || status == Cancelled
  }

  function CompletedRow(t: Task, status: Status, message: string, now: Time): Task {
    t.(status := status, lastError := message, leaseOwner := "", leaseUntil := None,
       finishedAt := if Finishing(status) then Some(now) else t.finishedAt, updatedAt := now)
  }

  function CompletedRun(r: Run, status: Status, code: string, message: string, now: Time): Run {
    r.(status := status, error := Reported(code, message),
       finishedAt := if Finishing(status) then Some(now) else r.finishedAt)
  }

  function CompleteTask(s: Store, id: Id, runId: Id, status: Status, code: string, message: string, now: Time): Outcome<()> {
    if !Finishing(status) && status != AwaitingApproval then Outcome(s, Err(InvalidStatus))
    else if id !in s.tasks then Outcome(s, Err(TaskNotFound))
    else if runId != "" && !(runId in s.runs && s.runs[runId].taskId == id) then Outcome(s, Err(RunNotFound))
    else
      var current := s.tasks[id].status;
      if runId != "" && s.runs[runId].status != Running then
        Outcome(s, if current == status && s.runs[runId].status == status then Ok(()) else Err(LeaseLost))
      else if current == status && Finishing(status) then Outcome(s, Ok(()))
      else if !CanTransition(current, status) then Outcome(s, Err(InvalidTransition(current, status)))
      else
        var tasks := s.tasks[id := CompletedRow(s.tasks[id], status, message, now)];
        var runs := if runId == "" then s.runs
                    else s.runs[runId := CompletedRun(s.runs[runId], status, code, message, now)];
        Outcome(s.(tasks := tasks, runs := runs), Ok(()))
  }

  // ----- supersede -----

  /** The WHERE clause that selects the reviews of one pull request. */
  predicate ReviewRow(spec: TaskSpec, repositoryId: string, providerId: string, pullRequest: int) {
    && spec.kind == CodeReview
    && ((repositoryId != "" && spec.repositoryId == repositoryId)
        || (spec.repositoryId == "" && providerId != "" && spec.payload.repositoryId == Some(providerId)))
    && spec.payload.pullRequestNumber == Some(pullRequest)
  }

  predicate ToSupersede(t: Task, id: Id, repositoryId: string, providerId: string, pullRequest: int, newTask: Id) {
    id != newTask && ReviewRow(t.spec, repositoryId, providerId, pullRequest) && t.status != Superseded
  }

  function SupersededRow(t: Task, newTask: Id, dbNow: Time): Task {
    t.(status := Superseded, supersededBy := Some(newTask), leaseOwner := "", leaseUntil := None,
       finishedAt := if t.finishedAt.Some? then t.finishedAt else Some(dbNow), updatedAt := dbNow)
  }

  function SupersedeTasks(tasks: map<Id, Task>, repositoryId: string, providerId: string, pullRequest: int,
                          newTask: Id, dbNow: Time): map<Id, Task> {
    map id | id in tasks ::
      if ToSupersede(tasks[id], id, repositoryId, providerId, pullRequest, newTask)
      then SupersededRow(tasks[id], newTask, dbNow) else tasks[id]
  }

  function SupersedeRuns(runs: map<Id, Run>, tasks: map<Id, Task>, newTask: Id, dbNow: Time): map<Id, Run> {
    map r | r in runs ::
      if runs[r].taskId in tasks && tasks[runs[r].taskId].spec.kind == CodeReview
         && tasks[runs[r].taskId].supersededBy == Some(newTask) && Open(runs[r].status)
      then runs[r].(status := Superseded, error := SupersededError, finishedAt := Some(dbNow))
      else runs[r]
  }

  /** Fails as a whole when superseded_by would not reference a task row. */
  function SupersedeCodeReviews(s: Store, repositoryId: string, providerId: string, pullRequest: int,
                                newTask: Id, dbNow: Time): Outcome<()> {
    if newTask !in s.tasks && exists id :: id in s.tasks && ToSupersede(s.tasks[id], id, repositoryId, providerId, pullRequest, newTask)
    then Outcome(s, Err(StorageError))
    else
      var tasks := SupersedeTasks(s.tasks, repositoryId, providerId, pullRequest, newTask, dbNow);
      Outcome(s.(tasks := tasks, runs := SupersedeRuns(s.runs, tasks, newTask, dbNow)), Ok(()))
  }

  // ----- run events -----

  function EventsOf(s: Store, runId: Id): seq<Event> {
    if runId in s.events then s.events[runId] else []
  }

  /** COALESCE(MAX(sequence), 0). */
  function MaxSequence(log: seq<Event>): int {
    if log == [] then 0
    else
      var rest := MaxSequence(log[..|log| - 1]);
      var last := log[|log| - 1].sequence;
      if |log| == 1 || rest < last then last else rest
  }

  function AppendRunEvent(s: Store, runId: Id, input: EventInput, dbNow: Time): Outcome<Event> {
    if runId !in s.runs then Outcome(s, Err(RunNotFound))
    else
      var log := EventsOf(s, runId);
      var event := Event(MaxSequence(log) + 1, input, dbNow);
      Outcome(s.(events := s.events[runId := log + [event]]), Ok(event))
  }

  // ----- steps and behaviours -----

  /** One transaction, with everything its effect depends on. */
  datatype Op =
    | Create(input: CreateInput, newId: Id, dbNow: Time)
    | Insert(spec: TaskSpec, newId: Id, dbNow: Time)
    | Cancel(id: Id, note: string, now: Time)
    | Retry(id: Id, note: string, now: Time)
    | Claim(owner: string, lease: Time, dbNow: Time, now: Time, runId: Id, correlationId: string, locked: set<Id>, pick: Option<Id>)
    | Beat(id: Id, owner: string, lease: Time, now: Time)
    | Complete(id: Id, runId: Id, status: Status, code: string, message: string, now: Time)
    | Supersede(repositoryId: string, providerId: string, pullRequest: int, newTask: Id, dbNow: Time)
    | Append(runId: Id, event: EventInput, dbNow: Time)

  ghost predicate Enabled(s: Store, op: Op) {
    op.Claim? ==> ValidPick(s.tasks, op.dbNow, op.locked, op.pick)
  }

  /** A completion that carries a run identifier, as every queue worker sends. */
  predicate Fenced(op: Op) {
    op.Complete? ==> op.runId != ""
  }

  ghost function Apply(s: Store, op: Op): Store
    requires Enabled(s, op)
  {
    match op
    case Create(input, newId, dbNow) => CreateTask(s, input, newId, dbNow).store
    case Insert(spec, newId, dbNow) => InsertTask(s, spec, newId, dbNow).store
    case Cancel(id, note, now) => CancelTask(s, id, note, now).store
    case Retry(id, note, now) => RetryTask(s, id, note, now).store
    case Claim(owner, lease, _, now, runId, correlationId, _, pick) => ClaimTask(s, owner, lease, now, runId, correlationId, pick).store
    case Beat(id, owner, lease, now) => Heartbeat(s, id, owner, lease, now).store
    case Complete(id, runId, status, code, message, now) => CompleteTask(s, id, runId, status, code, message, now).store
    case Supersede(repositoryId, providerId, pullRequest, newTask, dbNow) =>
      SupersedeCodeReviews(s, repositoryId, providerId, pullRequest, newTask, dbNow).store
    case Append(runId, event, dbNow) => AppendRunEvent(s, runId, event, dbNow).store
  }

  ghost predicate Step(s: Store, op: Op, s': Store) {
    Enabled(s, op) && s' == Apply(s, op)
  }

  /** Any interleaving of transactions of any number of processes: states[i] is the store before ops[i]. */
  ghost predicate Behaviour(states: seq<Store>, ops: seq<Op>) {
    |states| == |ops| + 1 && forall i :: 0 <= i < |ops| ==> Step(states[i], ops[i], states[i + 1])
  }
}
