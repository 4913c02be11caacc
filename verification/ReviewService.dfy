/** The webhook handler (review/service.go) as code over the task store: a create and then a
    supersede, with whatever other processes do in between. */
module ReviewService {
  import opened Base
  import opened Review
  import T = Tasks
  import W = Worker
  import TaskStore
  import TaskRules
  import TP = TaskProofs

  /** What reading the webhook gave: nothing to do, an error, or a pull request event. */
  datatype Parsed = Unsupported | Invalid | PullRequestEvent(event: Event)

  datatype Lookup = Connected(id: Id) | Unconnected | LookupFailed

  datatype Error = InvalidEvent | ErrLookup | StoreError(error: T.Error)

  function Resolved(e: Event, lookup: Lookup): Event {
    e.(repositoryId := if lookup.Connected? then lookup.id else "")
  }

  /** The task carries the event's source key; others lead from `before` to `between`; then every
      other selected review is superseded and no other row changes. */
  ghost predicate Handled(before: T.Store, between: T.Store, after: T.Store, e: Event, task: Id) {
    && T.HasSourceKey(before, task, e.sourceKey) && W.Reaches(before, between)
    && after.tasks.Keys == between.tasks.Keys
    && (forall id :: id in after.tasks ==>
         if id != task && between.tasks[id].status != T.Superseded
            && TaskRules.IsReviewOf(between.tasks[id], e.repositoryId, e.providerId, e.pullRequest)
         then after.tasks[id].status == T.Superseded && after.tasks[id].supersededBy == Some(task) && after.tasks[id].spec == between.tasks[id].spec
         else after.tasks[id] == between.tasks[id])
  }

  datatype Reply = Reply(store: T.Store, result: Result<Option<Id>, Error>)

  /** After the create step gave `task`: the supersede statement, unless neither identifier is known. */
  function Superseding(s: T.Store, e: Event, task: Id, dbNow: Time): Reply {
    if e.repositoryId == "" && e.providerId == "" then Reply(s, Ok(Some(task)))
    else
      var done := T.SupersedeCodeReviews(s, e.repositoryId, e.providerId, e.pullRequest, task, dbNow);
      Reply(done.store, match done.result case Ok(_) => Ok(Some(task)) case Err(x) => Err(StoreError(x)))
  }

  /** The whole handler, with `task` the row that the create step returns. */
  ghost function Handling(s: T.Store, parsed: Parsed, lookup: Lookup, newId: Id, dbNow: Time, later: Time,
                          others: (T.Store, nat) -> T.Store, task: Id): Reply {
    if parsed.Unsupported? then Reply(s, Ok(None))
    else if parsed.Invalid? then Reply(s, Err(InvalidEvent))
    else if lookup.LookupFailed? then Reply(s, Err(ErrLookup))
    else
      var e := Resolved(parsed.event, lookup);
      var created := T.CreateTask(s, InputOf(e), newId, dbNow);
      match created.result
      case Err(x) => Reply(created.store, Err(StoreError(x)))
      case Ok(_) => Superseding(others(created.store, 0), e, task, later)
  }

  /** A task that the create step may return: the one that owns the event's source key afterwards. */
  ghost predicate Owner(s: T.Store, parsed: Parsed, lookup: Lookup, newId: Id, dbNow: Time, task: Id) {
    parsed.PullRequestEvent? && !lookup.LookupFailed? ==>
      var e := Resolved(parsed.event, lookup);
      var created := T.CreateTask(s, InputOf(e), newId, dbNow);
      created.result.Ok? ==> T.HasSourceKey(created.store, task, e.sourceKey)
  }

  /** What a success leaves behind. */
  lemma SupersedingHandles(before: T.Store, between: T.Store, e: Event, task: Id, dbNow: Time)
    requires T.HasSourceKey(before, task, e.sourceKey) && W.Reaches(before, between) && Superseding(between, e, task, dbNow).result.Ok?
    ensures Superseding(between, e, task, dbNow).result == Ok(Some(task))
    ensures Handled(before, between, Superseding(between, e, task, dbNow).store, e, task)
  {
    TaskRules.SupersedeExactly(between, e.repositoryId, e.providerId, e.pullRequest, task, dbNow);
  }

  /** A handler changes no task of another kind and no review of another pull request or repository, neither
      when it succeeds nor when it fails; the only row it adds is its own, with the event's columns. */
  lemma HandlerTouchesItsPullRequestOnly(s: T.Store, e: Event, task: Id, dbNow: Time, id: Id)
    requires id in s.tasks
    requires || s.tasks[id].spec.kind != T.CodeReview
             || s.tasks[id].spec.payload.pullRequestNumber != Some(e.pullRequest)
             || (s.tasks[id].spec.repositoryId != "" && s.tasks[id].spec.repositoryId != e.repositoryId)
             || (s.tasks[id].spec.repositoryId == "" && s.tasks[id].spec.payload.repositoryId != Some(e.providerId))
    ensures id in Superseding(s, e, task, dbNow).store.tasks && Superseding(s, e, task, dbNow).store.tasks[id] == s.tasks[id]
  {
    TaskRules.SupersedeExactly(s, e.repositoryId, e.providerId, e.pullRequest, task, dbNow);
  }

  /** The task of a new delivery is a review of that pull request, with the queue's usual settings. */
  lemma HandlerTaskColumns(s: T.Store, e: Event, newId: Id, dbNow: Time)
    requires T.CreateTask(s, InputOf(e), newId, dbNow).store != s
    ensures var o := T.CreateTask(s, InputOf(e), newId, dbNow);
            newId in o.store.tasks
            && var t := o.store.tasks[newId];
               (&& t.status == T.Queued && t.spec.kind == T.CodeReview && t.spec.priority == 50 && t.spec.maxAttempts == 3
                && t.spec.createdBy == "" && t.spec.repositoryId == e.repositoryId && t.spec.sourceKey == e.sourceKey
                && t.spec.payload.repositoryId == Some(e.providerId) && t.spec.payload.pullRequestNumber == Some(e.pullRequest)
                && (e.repositoryId != "" || e.providerId != "" ==> TaskRules.IsReviewOf(t, e.repositoryId, e.providerId, e.pullRequest)))
  {
    TaskRules.CreateExactly(s, InputOf(e), newId, dbNow);
  }

  /** In a store whose source keys are unique the owner is the very task the create step names. */
  lemma OwnerIsTheCreatedTask(s: T.Store, e: Event, newId: Id, dbNow: Time, task: Id)
    requires TP.Inv(s) && T.CreateTask(s, InputOf(e), newId, dbNow).result.Ok?
    requires T.HasSourceKey(T.CreateTask(s, InputOf(e), newId, dbNow).store, task, e.sourceKey)
    ensures task == T.CreateTask(s, InputOf(e), newId, dbNow).result.value.0
  {
    var made := T.CreateTask(s, InputOf(e), newId, dbNow);
    if T.SourceKeyTaken(s, e.sourceKey) {
      assert T.HasSourceKey(s, made.result.value.0, e.sourceKey);
    } else {
      assert !T.HasSourceKey(s, task, e.sourceKey);
    }
  }

  /** With nobody in between, a handler is its create step followed by its supersede step. */
  lemma HandlingIsItsSteps(s: Sys, handler: Id, e: Event, newId: Id, dbNow: Time, later: Time)
    requires handler !in s.handlers && T.CreateTask(s.store, InputOf(e), newId, dbNow).result.Ok?
    ensures var task := T.CreateTask(s.store, InputOf(e), newId, dbNow).result.value.0;
            Apply(Apply(s, CreateStep(handler, e, newId, dbNow)), SupersedeStep(handler, later)).store
            == Superseding(T.CreateTask(s.store, InputOf(e), newId, dbNow).store, e, task, later).store
  {
  }

  /** The handler returns and stores exactly what Handling says, on every branch: ignored, invalid, failed
      lookup, refused create, failed supersede, success. */
  method HandleWebhook(tasks: TaskStore.PostgreSQLStore, parsed: Parsed, lookup: Lookup, newId: Id, dbNow: Time, later: Time,
                       others: (T.Store, nat) -> T.Store)
    returns (r: Result<Option<Id>, Error>, ghost task: Id)
    modifies tasks
    ensures Owner(old(tasks.State()), parsed, lookup, newId, dbNow, task)
    ensures Reply(tasks.State(), r) == Handling(old(tasks.State()), parsed, lookup, newId, dbNow, later, others, task)
    ensures W.Interferes(others) && r.Ok? && r.value.Some? ==>
      var before := T.CreateTask(old(tasks.State()), InputOf(Resolved(parsed.event, lookup)), newId, dbNow).store;
      r.value.value == task && Handled(before, others(before, 0), tasks.State(), Resolved(parsed.event, lookup), task)
  {
    task := "";
    if parsed.Unsupported? {
      return Ok(None), task;
    }
    if parsed.Invalid? {
      return Err(InvalidEvent), task;
    }
    var repositoryId := "";
    if lookup.Connected? {
      repositoryId := lookup.id;
    } else if lookup.LookupFailed? {
      return Err(ErrLookup), task;
    }
    var e := parsed.event.(repositoryId := repositoryId);
    assert e == Resolved(parsed.event, lookup);
    var created := tasks.CreateTask(InputOf(e), newId, dbNow);
    if created.Err? {
      return Err(StoreError(created.error)), task;
    }
    ghost var before := tasks.State();
    task := created.value.0;
    W.Yield(tasks, others, 0);
    ghost var between := tasks.State();
    r := Supersede(tasks, e, created.value.0, later);
    if W.Interferes(others) && r.Ok? {
      assert W.Reaches(before, between);
      SupersedingHandles(before, between, e, task, later);
    }
  }

  method Supersede(tasks: TaskStore.PostgreSQLStore, e: Event, task: Id, dbNow: Time) returns (r: Result<Option<Id>, Error>)
    modifies tasks
    ensures Reply(tasks.State(), r) == Superseding(old(tasks.State()), e, task, dbNow)
  {
    if e.repositoryId != "" || e.providerId != "" {
      var done := tasks.SupersedeCodeReviews(e.repositoryId, e.providerId, e.pullRequest, task, dbNow);
      if done.Err? {
        return Err(StoreError(done.error));
      }
    }
    return Ok(Some(task));
  }
}
