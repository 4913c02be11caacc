/** Pull request webhooks: a create step followed by a supersede step, interleaved
    with other handlers and with every task transaction. */
module Review {
  import opened Base
  import T = Tasks
  import TP = TaskProofs

  /** A verified pull request event, with the repository identifier its handler resolved ("" when the
      repository is not connected) and the source key of its commit. */
  datatype Event = Event(repositoryId: string, providerId: string, pullRequest: int, title: string, sourceKey: string, other: string, at: Time)

  datatype Handler = Created(event: Event, task: Id) | Finished(event: Event, task: Id)

  datatype Sys = Sys(store: T.Store, handlers: map<Id, Handler>)

  datatype Step =
    | CreateStep(handler: Id, event: Event, newId: Id, dbNow: Time)
    | SupersedeStep(handler: Id, dbNow: Time)
    | TaskStep(op: T.Op)

  function InputOf(e: Event): T.CreateInput {
    T.CreateInput(T.CodeReview, e.title, e.repositoryId, e.other, e.sourceKey,
                  T.Payload(Some(e.providerId), Some(e.pullRequest), e.other), 50, 3, "", e.at)
  }

  ghost function Apply(s: Sys, step: Step): Sys
    requires step.TaskStep? ==> T.Enabled(s.store, step.op)
  {
    match step
    case TaskStep(op) => s.(store := T.Apply(s.store, op))
    case CreateStep(handler, event, newId, dbNow) =>
      if handler in s.handlers then s
      else
        var made := T.CreateTask(s.store, InputOf(event), newId, dbNow);
        if made.result.Err? then s else Sys(made.store, s.handlers[handler := Created(event, made.result.value.0)])
    case SupersedeStep(handler, dbNow) =>
      if handler !in s.handlers || !s.handlers[handler].Created? then s
      else
        var Created(e, task) := s.handlers[handler];
        if e.repositoryId == "" && e.providerId == "" then s.(handlers := s.handlers[handler := Finished(e, task)])
        else
          var done := T.SupersedeCodeReviews(s.store, e.repositoryId, e.providerId, e.pullRequest, task, dbNow);
          if done.result.Err? then s.(handlers := s.handlers - {handler})
          else Sys(done.store, s.handlers[handler := Finished(e, task)])
  }

  ghost predicate Next(s: Sys, step: Step, s': Sys) {
    (step.TaskStep? ==> T.Enabled(s.store, step.op)) && s' == Apply(s, step)
  }

  ghost predicate Behaviour(states: seq<Sys>, steps: seq<Step>) {
    |states| == |steps| + 1 && forall i :: 0 <= i < |steps| ==> Next(states[i], steps[i], states[i + 1])
  }

  // ----- live reviews -----

  predicate About(h: Handler, providerId: string, pullRequest: int) {
    h.event.providerId == providerId && h.event.pullRequest == pullRequest
  }

  /** Handler x has finished for this pull request and its task is not superseded. */
  predicate LiveAt(s: Sys, providerId: string, pullRequest: int, x: Id) {
    && x in s.handlers && s.handlers[x].Finished? && About(s.handlers[x], providerId, pullRequest)
    && s.handlers[x].task in s.store.tasks && s.store.tasks[s.handlers[x].task].status != T.Superseded
  }

  ghost predicate OneLive(s: Sys, providerId: string, pullRequest: int) {
    forall x, y :: LiveAt(s, providerId, pullRequest, x) && LiveAt(s, providerId, pullRequest, y) ==> s.handlers[x].task == s.handlers[y].task
  }

  /** Every live review other than the finishing handler's own is among the rows its statement selects. */
  ghost predicate Covered(s: Sys, e: Event, task: Id) {
    forall x :: LiveAt(s, e.providerId, e.pullRequest, x) && s.handlers[x].task != task
      ==> T.ReviewRow(s.store.tasks[s.handlers[x].task].spec, e.repositoryId, e.providerId, e.pullRequest)
  }

  lemma SupersedeLive(store: T.Store, e: Event, task: Id, dbNow: Time, id: Id)
    requires id in store.tasks && T.SupersedeCodeReviews(store, e.repositoryId, e.providerId, e.pullRequest, task, dbNow).result.Ok?
    ensures var store' := T.SupersedeCodeReviews(store, e.repositoryId, e.providerId, e.pullRequest, task, dbNow).store;
            && store'.tasks.Keys == store.tasks.Keys
            && (store'.tasks[id].status != T.Superseded <==>
                store.tasks[id].status != T.Superseded
                && (id == task || !T.ReviewRow(store.tasks[id].spec, e.repositoryId, e.providerId, e.pullRequest)))
  {
  }

  /** What finishing does to liveness, handler by handler. */
  lemma FinishLive(s: Sys, handler: Id, dbNow: Time, x: Id)
    requires Finishes(s, handler, dbNow)
    ensures var e, task, s' := s.handlers[handler].event, s.handlers[handler].task, Apply(s, SupersedeStep(handler, dbNow));
            && (x in s'.handlers ==> x in s.handlers && s'.handlers[x].task == s.handlers[x].task)
            && (LiveAt(s', e.providerId, e.pullRequest, x) <==>
                (if x == handler then s.store.tasks[task].status != T.Superseded
                 else LiveAt(s, e.providerId, e.pullRequest, x)
                      && (s.handlers[x].task == task
                          || !T.ReviewRow(s.store.tasks[s.handlers[x].task].spec, e.repositoryId, e.providerId, e.pullRequest))))
  {
    var e, task := s.handlers[handler].event, s.handlers[handler].task;
    SupersedeLive(s.store, e, task, dbNow, task);
    if x in s.handlers && s.handlers[x].task in s.store.tasks {
      SupersedeLive(s.store, e, task, dbNow, s.handlers[x].task);
    }
  }

  /** A supersede step that runs its statement and succeeds. */
  ghost predicate Finishes(s: Sys, handler: Id, dbNow: Time) {
    && handler in s.handlers && s.handlers[handler].Created? && s.handlers[handler].task in s.store.tasks
    && var e := s.handlers[handler].event;
       && e.providerId != ""
       && T.SupersedeCodeReviews(s.store, e.repositoryId, e.providerId, e.pullRequest, s.handlers[handler].task, dbNow).result.Ok?
  }

  /** Exactly when a finishing handler keeps at most one live review: its own task was superseded
      meanwhile, or its statement selects every other live review. */
  lemma FinishKeepsOneLive(s: Sys, handler: Id, dbNow: Time)
    requires Finishes(s, handler, dbNow)
    requires OneLive(s, s.handlers[handler].event.providerId, s.handlers[handler].event.pullRequest)
    ensures var e, task, s' := s.handlers[handler].event, s.handlers[handler].task, Apply(s, SupersedeStep(handler, dbNow));
            OneLive(s', e.providerId, e.pullRequest) <==> s.store.tasks[task].status == T.Superseded || Covered(s, e, task)
  {
    var e, task, s' := s.handlers[handler].event, s.handlers[handler].task, Apply(s, SupersedeStep(handler, dbNow));
    forall x
      ensures LiveAt(s', e.providerId, e.pullRequest, x) && x != handler ==> LiveAt(s, e.providerId, e.pullRequest, x)
    {
      FinishLive(s, handler, dbNow, x);
    }
    FinishLive(s, handler, dbNow, handler);
    if s.store.tasks[task].status == T.Superseded || Covered(s, e, task) {
      forall x, y | LiveAt(s', e.providerId, e.pullRequest, x) && LiveAt(s', e.providerId, e.pullRequest, y)
        ensures s'.handlers[x].task == s'.handlers[y].task
      {
        FinishLive(s, handler, dbNow, x);
        FinishLive(s, handler, dbNow, y);
      }
    } else {
      var x :| LiveAt(s, e.providerId, e.pullRequest, x) && s.handlers[x].task != task
        && !T.ReviewRow(s.store.tasks[s.handlers[x].task].spec, e.repositoryId, e.providerId, e.pullRequest);
      FinishLive(s, handler, dbNow, x);
      assert LiveAt(s', e.providerId, e.pullRequest, x) && LiveAt(s', e.providerId, e.pullRequest, handler);
    }
  }

  ghost predicate SomeLive(s: Sys, providerId: string, pullRequest: int) {
    exists x :: LiveAt(s, providerId, pullRequest, x)
  }

  /** A live review that the finishing handler's statement does not select. */
  ghost predicate SparesOne(s: Sys, e: Event) {
    exists x :: LiveAt(s, e.providerId, e.pullRequest, x)
      && !T.ReviewRow(s.store.tasks[s.handlers[x].task].spec, e.repositoryId, e.providerId, e.pullRequest)
  }

  /** Exactly when a finishing handler leaves a live review at all: its own task is still live, or its
      statement spares another. The statement never asks about its own task. */
  lemma FinishLeavesSomeLive(s: Sys, handler: Id, dbNow: Time)
    requires Finishes(s, handler, dbNow)
    ensures var e, task, s' := s.handlers[handler].event, s.handlers[handler].task, Apply(s, SupersedeStep(handler, dbNow));
            SomeLive(s', e.providerId, e.pullRequest) <==> s.store.tasks[task].status != T.Superseded || SparesOne(s, e)
  {
    var e, task, s' := s.handlers[handler].event, s.handlers[handler].task, Apply(s, SupersedeStep(handler, dbNow));
    FinishLive(s, handler, dbNow, handler);
    if s.store.tasks[task].status != T.Superseded {
      assert LiveAt(s', e.providerId, e.pullRequest, handler);
    } else if SparesOne(s, e) {
      var x :| LiveAt(s, e.providerId, e.pullRequest, x)
        && !T.ReviewRow(s.store.tasks[s.handlers[x].task].spec, e.repositoryId, e.providerId, e.pullRequest);
      FinishLive(s, handler, dbNow, x);
      assert LiveAt(s', e.providerId, e.pullRequest, x);
    } else if SomeLive(s', e.providerId, e.pullRequest) {
      var x :| LiveAt(s', e.providerId, e.pullRequest, x);
      FinishLive(s, handler, dbNow, x);
    }
  }

  // ----- every interleaving of handlers that resolve the repository alike -----

  /** Every handler of this pull request resolved repository u and holds a review row of it. */
  ghost predicate Consistent(s: Sys, u: string, providerId: string, pullRequest: int) {
    forall x :: x in s.handlers && About(s.handlers[x], providerId, pullRequest) ==>
      && s.handlers[x].event.repositoryId == u && s.handlers[x].task in s.store.tasks
      && T.ReviewRow(s.store.tasks[s.handlers[x].task].spec, u, providerId, pullRequest)
  }

  /** What a caller can check before a webhook's create step: the lookup gave u, and the source key is
      free or belongs to a review row of this pull request. */
  ghost predicate Agreed(s: Sys, step: Step, u: string, providerId: string, pullRequest: int) {
    step.CreateStep? && step.event.providerId == providerId && step.event.pullRequest == pullRequest ==>
      && step.event.repositoryId == u
      && forall id :: T.HasSourceKey(s.store, id, step.event.sourceKey) ==> T.ReviewRow(s.store.tasks[id].spec, u, providerId, pullRequest)
  }

  lemma StoreMoves(s: Sys, step: Step)
    requires step.TaskStep? ==> T.Enabled(s.store, step.op)
    ensures TP.TasksStep(s.store.tasks, Apply(s, step).store.tasks)
  {
    match step
    case TaskStep(op) => TP.EveryStepIsAStoreStep(s.store, op);
    case CreateStep(_, event, newId, dbNow) => TP.InsertIsAStoreStep(s.store, T.SpecOf(InputOf(event)), newId, dbNow);
    case SupersedeStep(handler, dbNow) =>
      if handler in s.handlers {
        var e, task := s.handlers[handler].event, s.handlers[handler].task;
        TP.SupersedeIsAStoreStep(s.store, e.repositoryId, e.providerId, e.pullRequest, task, dbNow);
      }
  }

  lemma CreatedRow(s: Sys, step: Step, u: string, providerId: string, pullRequest: int)
    requires step.CreateStep? && step.handler !in s.handlers && step.handler in Apply(s, step).handlers
    requires About(Created(step.event, ""), providerId, pullRequest) && providerId != "" && Agreed(s, step, u, providerId, pullRequest)
    ensures var s', x := Apply(s, step), step.handler;
            && s'.handlers[x].event == step.event && s'.handlers[x].task in s'.store.tasks
            && T.ReviewRow(s'.store.tasks[s'.handlers[x].task].spec, u, providerId, pullRequest)
  {
    var made := T.CreateTask(s.store, InputOf(step.event), step.newId, step.dbNow);
    if T.SourceKeyTaken(s.store, step.event.sourceKey) {
      assert T.HasSourceKey(s.store, made.result.value.0, step.event.sourceKey);
    }
  }

  lemma HandlersStay(s: Sys, step: Step, x: Id)
    requires step.TaskStep? ==> T.Enabled(s.store, step.op)
    requires x in s.handlers && x in Apply(s, step).handlers
    ensures Apply(s, step).handlers[x].event == s.handlers[x].event && Apply(s, step).handlers[x].task == s.handlers[x].task
  {
  }

  lemma StepKeepsConsistent(s: Sys, step: Step, u: string, providerId: string, pullRequest: int)
    requires step.TaskStep? ==> T.Enabled(s.store, step.op)
    requires Consistent(s, u, providerId, pullRequest) && Agreed(s, step, u, providerId, pullRequest) && providerId != ""
    ensures Consistent(Apply(s, step), u, providerId, pullRequest)
  {
    var s' := Apply(s, step);
    assert TP.TasksStep(s.store.tasks, s'.store.tasks) by { StoreMoves(s, step); }
    forall x | x in s'.handlers && About(s'.handlers[x], providerId, pullRequest)
      ensures s'.handlers[x].event.repositoryId == u && s'.handlers[x].task in s'.store.tasks
      ensures T.ReviewRow(s'.store.tasks[s'.handlers[x].task].spec, u, providerId, pullRequest)
    {
      if x !in s.handlers {
        CreatedRow(s, step, u, providerId, pullRequest);
      } else {
        HandlersStay(s, step, x);
        assert TP.RowStep(s.store.tasks[s.handlers[x].task], s'.store.tasks[s.handlers[x].task]);
      }
    }
  }

  /** The handlers of this pull request hold stored tasks. */
  ghost predicate Known(s: Sys, providerId: string, pullRequest: int) {
    forall x :: x in s.handlers && About(s.handlers[x], providerId, pullRequest) ==> s.handlers[x].task in s.store.tasks
  }

  lemma OtherStepsKeepOneLive(s: Sys, step: Step, providerId: string, pullRequest: int)
    requires step.TaskStep? ==> T.Enabled(s.store, step.op)
    requires OneLive(s, providerId, pullRequest) && Known(s, providerId, pullRequest)
    requires step.SupersedeStep? && step.handler in s.handlers ==> !About(s.handlers[step.handler], providerId, pullRequest)
    ensures OneLive(Apply(s, step), providerId, pullRequest)
  {
    var s' := Apply(s, step);
    assert TP.TasksStep(s.store.tasks, s'.store.tasks) by { StoreMoves(s, step); }
    forall x | LiveAt(s', providerId, pullRequest, x)
      ensures LiveAt(s, providerId, pullRequest, x) && s'.handlers[x].task == s.handlers[x].task
    {
      assert TP.RowStep(s.store.tasks[s.handlers[x].task], s'.store.tasks[s.handlers[x].task]);
    }
  }

  lemma FinishStepKeepsOneLive(s: Sys, handler: Id, dbNow: Time, u: string)
    requires handler in s.handlers && s.handlers[handler].event.providerId != ""
    requires var e := s.handlers[handler].event; OneLive(s, e.providerId, e.pullRequest) && Consistent(s, u, e.providerId, e.pullRequest)
    ensures var e := s.handlers[handler].event; OneLive(Apply(s, SupersedeStep(handler, dbNow)), e.providerId, e.pullRequest)
  {
    var e, task := s.handlers[handler].event, s.handlers[handler].task;
    assert About(s.handlers[handler], e.providerId, e.pullRequest);
    if s.handlers[handler].Created? {
      assert Finishes(s, handler, dbNow);
      assert Covered(s, e, task);
      FinishKeepsOneLive(s, handler, dbNow);
    }
  }

  /** Under every interleaving of webhook handlers and task transactions in which the handlers of a pull
      request resolve its repository alike, at most one review whose handler has finished is not superseded. */
  lemma {:induction false} OneLiveReview(states: seq<Sys>, steps: seq<Step>, n: nat, u: string, providerId: string, pullRequest: int)
    requires Behaviour(states, steps) && states[0] == Sys(T.EMPTY, map[]) && n <= |steps| && providerId != ""
    requires forall i :: 0 <= i < n ==> Agreed(states[i], steps[i], u, providerId, pullRequest)
    ensures OneLive(states[n], providerId, pullRequest) && Consistent(states[n], u, providerId, pullRequest)
  {
    if n > 0 {
      OneLiveReview(states, steps, n - 1, u, providerId, pullRequest);
      var s, step := states[n - 1], steps[n - 1];
      assert Next(s, step, states[n]);
      StepKeepsConsistent(s, step, u, providerId, pullRequest);
      if step.SupersedeStep? && step.handler in s.handlers && About(s.handlers[step.handler], providerId, pullRequest) {
        FinishStepKeepsOneLive(s, step.handler, step.dbNow, u);
      } else {
        OtherStepsKeepOneLive(s, step, providerId, pullRequest);
      }
    }
  }

  // ----- exactly when, over every interleaving -----

  lemma CreatedIsKnown(s: Sys, step: Step)
    requires step.CreateStep? && step.handler !in s.handlers && step.handler in Apply(s, step).handlers
    ensures Apply(s, step).handlers[step.handler].task in Apply(s, step).store.tasks
  {
    var made := T.CreateTask(s.store, InputOf(step.event), step.newId, step.dbNow);
    if T.SourceKeyTaken(s.store, step.event.sourceKey) {
      assert T.HasSourceKey(s.store, made.result.value.0, step.event.sourceKey);
    }
  }

  lemma StepKeepsKnown(s: Sys, step: Step, providerId: string, pullRequest: int)
    requires step.TaskStep? ==> T.Enabled(s.store, step.op)
    requires Known(s, providerId, pullRequest)
    ensures Known(Apply(s, step), providerId, pullRequest)
  {
    var s' := Apply(s, step);
    assert TP.TasksStep(s.store.tasks, s'.store.tasks) by { StoreMoves(s, step); }
    forall x | x in s'.handlers && About(s'.handlers[x], providerId, pullRequest)
      ensures s'.handlers[x].task in s'.store.tasks
    {
      if x !in s.handlers {
        CreatedIsKnown(s, step);
      } else {
        assert About(s.handlers[x], providerId, pullRequest);
        assert s.handlers[x].task in s'.store.tasks;
      }
    }
  }

  /** If the step finishes a handler of this pull request, that handler's task was superseded meanwhile
      or its statement selects every other live review. */
  ghost predicate Safe(s: Sys, step: Step, providerId: string, pullRequest: int) {
    step.SupersedeStep? && step.handler in s.handlers && s.handlers[step.handler].Created?
    && About(s.handlers[step.handler], providerId, pullRequest) && s.handlers[step.handler].task in s.store.tasks
    ==> s.store.tasks[s.handlers[step.handler].task].status == T.Superseded || Covered(s, s.handlers[step.handler].event, s.handlers[step.handler].task)
  }

  lemma StepKeepsOneLiveExactly(s: Sys, step: Step, providerId: string, pullRequest: int)
    requires step.TaskStep? ==> T.Enabled(s.store, step.op)
    requires OneLive(s, providerId, pullRequest) && Known(s, providerId, pullRequest) && providerId != ""
    ensures OneLive(Apply(s, step), providerId, pullRequest) <==> Safe(s, step, providerId, pullRequest)
  {
    if step.SupersedeStep? && step.handler in s.handlers && About(s.handlers[step.handler], providerId, pullRequest) {
      if s.handlers[step.handler].Created? {
        assert Finishes(s, step.handler, step.dbNow);
        FinishKeepsOneLive(s, step.handler, step.dbNow);
      }
    } else {
      OtherStepsKeepOneLive(s, step, providerId, pullRequest);
    }
  }

  lemma {:induction false} KnownAlong(states: seq<Sys>, steps: seq<Step>, n: nat, providerId: string, pullRequest: int)
    requires Behaviour(states, steps) && states[0] == Sys(T.EMPTY, map[]) && n <= |steps|
    ensures Known(states[n], providerId, pullRequest)
  {
    if n > 0 {
      KnownAlong(states, steps, n - 1, providerId, pullRequest);
      assert Next(states[n - 1], steps[n - 1], states[n]);
      StepKeepsKnown(states[n - 1], steps[n - 1], providerId, pullRequest);
    }
  }

  lemma ExactlyAt(states: seq<Sys>, steps: seq<Step>, i: nat, providerId: string, pullRequest: int)
    requires Behaviour(states, steps) && states[0] == Sys(T.EMPTY, map[]) && i < |steps| && providerId != ""
    requires OneLive(states[i], providerId, pullRequest)
    ensures OneLive(states[i + 1], providerId, pullRequest) <==> Safe(states[i], steps[i], providerId, pullRequest)
  {
    KnownAlong(states, steps, i, providerId, pullRequest);
    assert Next(states[i], steps[i], states[i + 1]);
    StepKeepsOneLiveExactly(states[i], steps[i], providerId, pullRequest);
  }

  /** With no assumption on how handlers resolve repositories: a behaviour keeps at most one live review
      exactly when each of its finishing steps is safe. */
  lemma OneLiveExactly(states: seq<Sys>, steps: seq<Step>, providerId: string, pullRequest: int)
    requires Behaviour(states, steps) && states[0] == Sys(T.EMPTY, map[]) && providerId != ""
    ensures (forall j :: 0 <= j < |states| ==> OneLive(states[j], providerId, pullRequest))
       <==> (forall j :: 0 <= j < |steps| ==> Safe(states[j], steps[j], providerId, pullRequest))
  {
    var holds := seq(|states|, j requires 0 <= j < |states| => OneLive(states[j], providerId, pullRequest));
    var safe := seq(|steps|, j requires 0 <= j < |steps| => Safe(states[j], steps[j], providerId, pullRequest));
    forall i | 0 <= i < |safe| && holds[i]
      ensures holds[i + 1] <==> safe[i]
    {
      ExactlyAt(states, steps, i, providerId, pullRequest);
    }
    KeptExactly(holds, safe);
    assert forall j :: 0 <= j < |states| ==> holds[j] == OneLive(states[j], providerId, pullRequest);
    assert forall j :: 0 <= j < |steps| ==> safe[j] == Safe(states[j], steps[j], providerId, pullRequest);
  }

  // ----- exactly when a live review is left, over every interleaving -----

  /** The step runs a supersede statement that selects this row. */
  predicate Selects(s: Sys, step: Step, id: Id) {
    id in s.store.tasks &&
    match step
    case SupersedeStep(handler, _) =>
      && handler in s.handlers && s.handlers[handler].Created? && s.handlers[handler].task in s.store.tasks
      && (s.handlers[handler].event.repositoryId != "" || s.handlers[handler].event.providerId != "")
      && var e := s.handlers[handler].event;
         T.ToSupersede(s.store.tasks[id], id, e.repositoryId, e.providerId, e.pullRequest, s.handlers[handler].task)
    case TaskStep(Supersede(repositoryId, providerId, pullRequest, newTask, _)) =>
      newTask in s.store.tasks && T.ToSupersede(s.store.tasks[id], id, repositoryId, providerId, pullRequest, newTask)
    case _ => false
  }

  lemma StatementSelects(store: T.Store, repositoryId: string, providerId: string, pullRequest: int, newTask: Id, dbNow: Time, id: Id)
    requires id in store.tasks
    ensures var store' := T.SupersedeCodeReviews(store, repositoryId, providerId, pullRequest, newTask, dbNow).store;
            id in store'.tasks && (store'.tasks[id].status == T.Superseded <==>
              store.tasks[id].status == T.Superseded
              || (newTask in store.tasks && T.ToSupersede(store.tasks[id], id, repositoryId, providerId, pullRequest, newTask)))
  {
  }

  /** No other transaction supersedes a task or revives a superseded one. */
  lemma OthersSupersedeNothing(store: T.Store, op: T.Op, id: Id)
    requires T.Enabled(store, op) && !op.Supersede? && id in store.tasks
    ensures id in T.Apply(store, op).tasks && (T.Apply(store, op).tasks[id].status == T.Superseded <==> store.tasks[id].status == T.Superseded)
  {
    match op
    case Complete(task, runId, status, code, message, now) => CompleteSupersedesNothing(store, task, runId, status, code, message, now, id);
    case Claim(_, _, dbNow, _, _, _, locked, pick) => assert pick.Some? ==> T.Candidate(store.tasks, dbNow, locked, pick.value);
    case _ =>
  }

  lemma CompleteSupersedesNothing(store: T.Store, task: Id, runId: Id, status: T.Status, code: string, message: string, now: Time, id: Id)
    requires id in store.tasks
    ensures var store' := T.CompleteTask(store, task, runId, status, code, message, now).store;
            id in store'.tasks && (store'.tasks[id].status == T.Superseded <==> store.tasks[id].status == T.Superseded)
  {
  }

  lemma StatusAfter(s: Sys, step: Step, id: Id)
    requires (step.TaskStep? ==> T.Enabled(s.store, step.op)) && id in s.store.tasks
    ensures var s' := Apply(s, step);
            id in s'.store.tasks
            && (s'.store.tasks[id].status == T.Superseded <==> s.store.tasks[id].status == T.Superseded || Selects(s, step, id))
  {
    match step
    case TaskStep(op) =>
      if op.Supersede? {
        StatementSelects(s.store, op.repositoryId, op.providerId, op.pullRequest, op.newTask, op.dbNow, id);
      } else {
        OthersSupersedeNothing(s.store, op, id);
      }
    case SupersedeStep(handler, dbNow) =>
      if handler in s.handlers {
        var e := s.handlers[handler].event;
        StatementSelects(s.store, e.repositoryId, e.providerId, e.pullRequest, s.handlers[handler].task, dbNow, id);
      }
    case CreateStep(_, _, _, _) =>
  }

  /** The step finishes a handler of this pull request whose own task is still live. */
  predicate FinishesLive(s: Sys, step: Step, providerId: string, pullRequest: int) {
    && step.SupersedeStep? && step.handler in s.handlers && s.handlers[step.handler].Created?
    && About(s.handlers[step.handler], providerId, pullRequest)
    && s.handlers[step.handler].task in s.store.tasks && s.store.tasks[s.handlers[step.handler].task].status != T.Superseded
  }

  ghost predicate KeepsLive(s: Sys, step: Step, providerId: string, pullRequest: int) {
    || FinishesLive(s, step, providerId, pullRequest)
    || exists x :: LiveAt(s, providerId, pullRequest, x) && !Selects(s, step, s.handlers[x].task)
  }

  /** Who is live after a step: those that were and are not selected, and a handler that finishes live. */
  lemma LiveAfter(s: Sys, step: Step, providerId: string, pullRequest: int, x: Id)
    requires (step.TaskStep? ==> T.Enabled(s.store, step.op)) && Known(s, providerId, pullRequest)
    ensures LiveAt(Apply(s, step), providerId, pullRequest, x) <==>
      (|| (LiveAt(s, providerId, pullRequest, x) && !Selects(s, step, s.handlers[x].task))
       || (FinishesLive(s, step, providerId, pullRequest) && step.handler == x))
  {
    if x in s.handlers && About(s.handlers[x], providerId, pullRequest) {
      StatusAfter(s, step, s.handlers[x].task);
    }
  }

  lemma StepLeavesLive(s: Sys, step: Step, providerId: string, pullRequest: int)
    requires (step.TaskStep? ==> T.Enabled(s.store, step.op)) && Known(s, providerId, pullRequest)
    ensures SomeLive(Apply(s, step), providerId, pullRequest) <==> KeepsLive(s, step, providerId, pullRequest)
  {
    var s' := Apply(s, step);
    if SomeLive(s', providerId, pullRequest) {
      var x :| LiveAt(s', providerId, pullRequest, x);
      LiveAfter(s, step, providerId, pullRequest, x);
    }
    if FinishesLive(s, step, providerId, pullRequest) {
      LiveAfter(s, step, providerId, pullRequest, step.handler);
    } else if KeepsLive(s, step, providerId, pullRequest) {
      var x :| LiveAt(s, providerId, pullRequest, x) && !Selects(s, step, s.handlers[x].task);
      LiveAfter(s, step, providerId, pullRequest, x);
    }
  }

  /** At every step of every behaviour a live review is left exactly when the step finishes a handler whose
      task is still live, or some live review is not selected by the step's statement. */
  lemma SomeLiveExactly(states: seq<Sys>, steps: seq<Step>, j: nat, providerId: string, pullRequest: int)
    requires Behaviour(states, steps) && states[0] == Sys(T.EMPTY, map[]) && j < |steps|
    ensures SomeLive(states[j + 1], providerId, pullRequest) <==> KeepsLive(states[j], steps[j], providerId, pullRequest)
  {
    KnownAlong(states, steps, j, providerId, pullRequest);
    assert Next(states[j], steps[j], states[j + 1]);
    StepLeavesLive(states[j], steps[j], providerId, pullRequest);
  }

  // ----- a lookup that raced with connecting the repository -----

  /** A whole handler: create, then supersede. */
  ghost function Handle(s: Sys, handler: Id, e: Event, newId: Id, dbNow: Time): Sys {
    Apply(Apply(s, CreateStep(handler, e, newId, dbNow)), SupersedeStep(handler, dbNow))
  }

  /** Rows the statement does not select are untouched. */
  ghost predicate SparesOthers(tasks: map<Id, T.Task>, tasks': map<Id, T.Task>, e: Event) {
    forall id :: id in tasks ==>
      && id in tasks' && tasks'[id].spec == tasks[id].spec
      && (T.ReviewRow(tasks[id].spec, e.repositoryId, e.providerId, e.pullRequest) || tasks'[id] == tasks[id])
  }

  lemma CreateFresh(s: Sys, handler: Id, e: Event, newId: Id, dbNow: Time)
    requires handler !in s.handlers && newId != "" && newId !in s.store.tasks && !T.SourceKeyTaken(s.store, e.sourceKey)
    requires !T.CreateRejected(InputOf(e))
    ensures var s1 := Apply(s, CreateStep(handler, e, newId, dbNow));
            && s1.handlers == s.handlers[handler := Created(e, newId)]
            && s1.store.tasks == s.store.tasks[newId := T.NewTask(T.SpecOf(InputOf(e)), dbNow)]
  {
  }

  lemma InsertAndSupersede(tasks: map<Id, T.Task>, e: Event, newId: Id, row: T.Task, dbNow: Time)
    requires newId !in tasks
    ensures var tasks' := T.SupersedeTasks(tasks[newId := row], e.repositoryId, e.providerId, e.pullRequest, newId, dbNow);
            SparesOthers(tasks, tasks', e) && tasks'.Keys == tasks.Keys + {newId} && tasks'[newId] == row
  {
  }

  lemma FinishFresh(s: Sys, handler: Id, dbNow: Time)
    requires handler in s.handlers && s.handlers[handler].Created? && s.handlers[handler].event.providerId != ""
    requires s.handlers[handler].task in s.store.tasks
    ensures var e, task, s' := s.handlers[handler].event, s.handlers[handler].task, Apply(s, SupersedeStep(handler, dbNow));
            && s'.handlers == s.handlers[handler := Finished(e, task)]
            && s'.store.tasks == T.SupersedeTasks(s.store.tasks, e.repositoryId, e.providerId, e.pullRequest, task, dbNow)
  {
  }

  lemma HandleFreshEvent(s: Sys, handler: Id, e: Event, newId: Id, dbNow: Time)
    requires handler !in s.handlers && newId != "" && newId !in s.store.tasks && !T.SourceKeyTaken(s.store, e.sourceKey)
    requires !T.CreateRejected(InputOf(e)) && e.providerId != ""
    ensures var s' := Handle(s, handler, e, newId, dbNow);
            && s'.handlers == s.handlers[handler := Finished(e, newId)] && LiveAt(s', e.providerId, e.pullRequest, handler)
            && SparesOthers(s.store.tasks, s'.store.tasks, e)
            && s'.store.tasks.Keys == s.store.tasks.Keys + {newId} && s'.store.tasks[newId].spec == T.SpecOf(InputOf(e))
  {
    var row := T.NewTask(T.SpecOf(InputOf(e)), dbNow);
    var s1 := Apply(s, CreateStep(handler, e, newId, dbNow));
    assert s1.store.tasks == s.store.tasks[newId := row] && s1.handlers == s.handlers[handler := Created(e, newId)] by {
      CreateFresh(s, handler, e, newId, dbNow);
    }
    var s' := Apply(s1, SupersedeStep(handler, dbNow));
    assert s' == Handle(s, handler, e, newId, dbNow);
    var tasks' := T.SupersedeTasks(s1.store.tasks, e.repositoryId, e.providerId, e.pullRequest, newId, dbNow);
    assert s'.store.tasks == tasks' && s'.handlers == s.handlers[handler := Finished(e, newId)] by { FinishFresh(s1, handler, dbNow); }
    assert SparesOthers(s.store.tasks, tasks', e) && tasks'.Keys == s.store.tasks.Keys + {newId} && tasks'[newId] == row by {
      InsertAndSupersede(s.store.tasks, e, newId, row, dbNow);
    }
  }

  /** Two handlers of one pull request that run one after the other, the second with a lookup made before
      the repository was connected, leave both reviews live. */
  lemma LookupRaceLeavesTwoLive(s: Sys, h1: Id, h2: Id, e1: Event, e2: Event, id1: Id, id2: Id, dbNow: Time)
    requires h1 !in s.handlers && h2 !in s.handlers && h1 != h2
    requires id1 !in s.store.tasks && id2 !in s.store.tasks && id1 != id2 && id1 != "" && id2 != ""
    requires !T.SourceKeyTaken(s.store, e1.sourceKey) && !T.SourceKeyTaken(s.store, e2.sourceKey) && e1.sourceKey != e2.sourceKey
    requires !T.CreateRejected(InputOf(e1)) && !T.CreateRejected(InputOf(e2))
    requires e1.providerId == e2.providerId != "" && e1.pullRequest == e2.pullRequest
    requires e1.repositoryId != "" && e2.repositoryId == ""
    ensures !OneLive(Handle(Handle(s, h1, e1, id1, dbNow), h2, e2, id2, dbNow), e1.providerId, e1.pullRequest)
  {
    HandleFreshEvent(s, h1, e1, id1, dbNow);
    var s1 := Handle(s, h1, e1, id1, dbNow);
    forall id
      ensures !T.HasSourceKey(s1.store, id, e2.sourceKey)
    {
      if id in s.store.tasks { assert !T.HasSourceKey(s.store, id, e2.sourceKey); }
    }
    HandleFreshEvent(s1, h2, e2, id2, dbNow);
    var s2 := Handle(s1, h2, e2, id2, dbNow);
    assert LiveAt(s2, e1.providerId, e1.pullRequest, h1) && LiveAt(s2, e1.providerId, e1.pullRequest, h2);
  }

  // ----- two handlers that supersede each other -----

  predicate SameTarget(e1: Event, e2: Event) {
    e1.repositoryId == e2.repositoryId && e1.providerId == e2.providerId != "" && e1.pullRequest == e2.pullRequest
  }

  /** The task rows after both handlers created theirs and then both superseded the other's. */
  lemma CrossedRows(e1: Event, e2: Event, dbNow: Time)
    requires SameTarget(e1, e2)
    ensures var row1, row2 := T.NewTask(T.SpecOf(InputOf(e1)), dbNow), T.NewTask(T.SpecOf(InputOf(e2)), dbNow);
            var tasks1 := T.SupersedeTasks(map["t1" := row1, "t2" := row2], e1.repositoryId, e1.providerId, e1.pullRequest, "t1", dbNow);
            var tasks2 := T.SupersedeTasks(tasks1, e2.repositoryId, e2.providerId, e2.pullRequest, "t2", dbNow);
            tasks2 == map["t1" := T.SupersededRow(row1, "t2", dbNow), "t2" := T.SupersededRow(row2, "t1", dbNow)]
  {
  }

  lemma BothCreated(e1: Event, e2: Event, dbNow: Time) returns (s1: Sys, s2: Sys)
    requires e1.sourceKey != e2.sourceKey && !T.CreateRejected(InputOf(e1)) && !T.CreateRejected(InputOf(e2))
    ensures Next(Sys(T.EMPTY, map[]), CreateStep("h1", e1, "t1", dbNow), s1) && Next(s1, CreateStep("h2", e2, "t2", dbNow), s2)
    ensures s2.handlers == map["h1" := Created(e1, "t1"), "h2" := Created(e2, "t2")]
    ensures s2.store.tasks == map["t1" := T.NewTask(T.SpecOf(InputOf(e1)), dbNow), "t2" := T.NewTask(T.SpecOf(InputOf(e2)), dbNow)]
  {
    var s0 := Sys(T.EMPTY, map[]);
    s1 := Apply(s0, CreateStep("h1", e1, "t1", dbNow));
    CreateFresh(s0, "h1", e1, "t1", dbNow);
    assert !T.SourceKeyTaken(s1.store, e2.sourceKey);
    s2 := Apply(s1, CreateStep("h2", e2, "t2", dbNow));
    CreateFresh(s1, "h2", e2, "t2", dbNow);
  }

  lemma BothFinished(s2: Sys, e1: Event, e2: Event, dbNow: Time) returns (s3: Sys, s4: Sys)
    requires e1.providerId != "" && e2.providerId != ""
    requires s2.handlers == map["h1" := Created(e1, "t1"), "h2" := Created(e2, "t2")] && s2.store.tasks.Keys == {"t1", "t2"}
    ensures Next(s2, SupersedeStep("h1", dbNow), s3) && Next(s3, SupersedeStep("h2", dbNow), s4)
    ensures s4.handlers == map["h1" := Finished(e1, "t1"), "h2" := Finished(e2, "t2")]
    ensures s4.store.tasks == T.SupersedeTasks(T.SupersedeTasks(s2.store.tasks, e1.repositoryId, e1.providerId, e1.pullRequest, "t1", dbNow),
                                               e2.repositoryId, e2.providerId, e2.pullRequest, "t2", dbNow)
  {
    s3 := Apply(s2, SupersedeStep("h1", dbNow));
    FinishFresh(s2, "h1", dbNow);
    s4 := Apply(s3, SupersedeStep("h2", dbNow));
    FinishFresh(s3, "h2", dbNow);
  }

  /** The ordinary race, from the empty store: two deliveries for one pull request both create their task
      before either supersedes. Both reviews end up superseded, each by the other. */
  lemma MutualSupersession(e1: Event, e2: Event, dbNow: Time) returns (states: seq<Sys>, steps: seq<Step>)
    requires SameTarget(e1, e2) && e1.sourceKey != e2.sourceKey && !T.CreateRejected(InputOf(e1)) && !T.CreateRejected(InputOf(e2))
    ensures Behaviour(states, steps) && states[0] == Sys(T.EMPTY, map[]) && |steps| == 4
    ensures states[4].handlers == map["h1" := Finished(e1, "t1"), "h2" := Finished(e2, "t2")]
    ensures states[4].store.tasks.Keys == {"t1", "t2"} && !SomeLive(states[4], e1.providerId, e1.pullRequest)
    ensures states[4].store.tasks["t1"].supersededBy == Some("t2") && states[4].store.tasks["t2"].supersededBy == Some("t1")
  {
    var s1, s2 := BothCreated(e1, e2, dbNow);
    var s3, s4 := BothFinished(s2, e1, e2, dbNow);
    CrossedRows(e1, e2, dbNow);
    var s0, create1, create2 := Sys(T.EMPTY, map[]), CreateStep("h1", e1, "t1", dbNow), CreateStep("h2", e2, "t2", dbNow);
    states, steps := [s0, s1, s2, s3, s4], [create1, create2, SupersedeStep("h1", dbNow), SupersedeStep("h2", dbNow)];
    FiveStates(s0, s1, s2, s3, s4, create1, create2, SupersedeStep("h1", dbNow), SupersedeStep("h2", dbNow));
  }

  lemma FiveStates(s0: Sys, s1: Sys, s2: Sys, s3: Sys, s4: Sys, a: Step, b: Step, c: Step, d: Step)
    requires Next(s0, a, s1) && Next(s1, b, s2) && Next(s2, c, s3) && Next(s3, d, s4)
    ensures Behaviour([s0, s1, s2, s3, s4], [a, b, c, d])
  {
    var states, steps := [s0, s1, s2, s3, s4], [a, b, c, d];
    forall i | 0 <= i < 4
      ensures Next(states[i], steps[i], states[i + 1])
    {
      assert i == 0 || i == 1 || i == 2 || i == 3;
    }
  }

  // ----- no race is needed -----

  /** A delivery whose source key is known gets the task that owns it, superseded or not. */
  lemma CreateKnown(s: Sys, handler: Id, e: Event, newId: Id, dbNow: Time, owner: Id)
    requires handler !in s.handlers && !T.CreateRejected(InputOf(e)) && T.HasSourceKey(s.store, owner, e.sourceKey)
    requires forall id :: T.HasSourceKey(s.store, id, e.sourceKey) ==> id == owner
    ensures Apply(s, CreateStep(handler, e, newId, dbNow)) == Sys(s.store, s.handlers[handler := Created(e, owner)])
  {
  }

  /** The rows as three handlers that run one after the other leave them. */
  lemma SequentialRows(e1: Event, e2: Event, dbNow: Time)
    requires SameTarget(e1, e2)
    ensures var row1, row2 := T.NewTask(T.SpecOf(InputOf(e1)), dbNow), T.NewTask(T.SpecOf(InputOf(e2)), dbNow);
            && T.SupersedeTasks(map["t1" := row1], e1.repositoryId, e1.providerId, e1.pullRequest, "t1", dbNow) == map["t1" := row1]
            && T.SupersedeTasks(map["t1" := row1, "t2" := row2], e2.repositoryId, e2.providerId, e2.pullRequest, "t2", dbNow)
               == map["t1" := T.SupersededRow(row1, "t2", dbNow), "t2" := row2]
            && T.SupersedeTasks(map["t1" := T.SupersededRow(row1, "t2", dbNow), "t2" := row2], e1.repositoryId, e1.providerId, e1.pullRequest, "t1", dbNow)
               == map["t1" := T.SupersededRow(row1, "t2", dbNow), "t2" := T.SupersededRow(row2, "t1", dbNow)]
  {
  }

  /** The first two deliveries, one after the other: the second review supersedes the first. */
  lemma TwoInSequence(e1: Event, e2: Event, dbNow: Time) returns (s4: Sys)
    requires SameTarget(e1, e2) && e1.sourceKey != e2.sourceKey && !T.CreateRejected(InputOf(e1)) && !T.CreateRejected(InputOf(e2))
    ensures s4 == Handle(Handle(Sys(T.EMPTY, map[]), "h1", e1, "t1", dbNow), "h2", e2, "t2", dbNow)
    ensures s4.handlers == map["h1" := Finished(e1, "t1"), "h2" := Finished(e2, "t2")]
    ensures var row1, row2 := T.NewTask(T.SpecOf(InputOf(e1)), dbNow), T.NewTask(T.SpecOf(InputOf(e2)), dbNow);
            s4.store.tasks == map["t1" := T.SupersededRow(row1, "t2", dbNow), "t2" := row2]
  {
    SequentialRows(e1, e2, dbNow);
    var row1, row2 := T.NewTask(T.SpecOf(InputOf(e1)), dbNow), T.NewTask(T.SpecOf(InputOf(e2)), dbNow);
    var s0 := Sys(T.EMPTY, map[]);
    var s2 := Handle(s0, "h1", e1, "t1", dbNow);
    assert s2.handlers == map["h1" := Finished(e1, "t1")] && s2.store.tasks == map["t1" := row1] by { OneInSequence(s0, "h1", e1, "t1", dbNow); }
    assert !T.SourceKeyTaken(s2.store, e2.sourceKey);
    s4 := Handle(s2, "h2", e2, "t2", dbNow);
    OneInSequence(s2, "h2", e2, "t2", dbNow);
    assert s2.store.tasks["t2" := row2] == map["t1" := row1, "t2" := row2];
  }

  /** A whole handler for a new commit. */
  lemma OneInSequence(s: Sys, handler: Id, e: Event, newId: Id, dbNow: Time)
    requires handler !in s.handlers && newId != "" && newId !in s.store.tasks && !T.SourceKeyTaken(s.store, e.sourceKey)
    requires !T.CreateRejected(InputOf(e)) && e.providerId != ""
    ensures var s', row := Handle(s, handler, e, newId, dbNow), T.NewTask(T.SpecOf(InputOf(e)), dbNow);
            && s'.handlers == s.handlers[handler := Finished(e, newId)]
            && s'.store.tasks == T.SupersedeTasks(s.store.tasks[newId := row], e.repositoryId, e.providerId, e.pullRequest, newId, dbNow)
  {
    CreateFresh(s, handler, e, newId, dbNow);
    FinishFresh(Apply(s, CreateStep(handler, e, newId, dbNow)), handler, dbNow);
  }

  /** Without any race: commit A, commit B, and A again after a force push back. Each handler runs to its end
      before the next begins; the last one finds A's task, already superseded by B's, and supersedes B's with
      it. No live review is left, and the two tasks point at each other. */
  lemma ForcePushBackLeavesNone(e1: Event, e2: Event, dbNow: Time) returns (s: Sys)
    requires SameTarget(e1, e2) && e1.sourceKey != e2.sourceKey && !T.CreateRejected(InputOf(e1)) && !T.CreateRejected(InputOf(e2))
    ensures s == Handle(Handle(Handle(Sys(T.EMPTY, map[]), "h1", e1, "t1", dbNow), "h2", e2, "t2", dbNow), "h3", e1, "t3", dbNow)
    ensures s.handlers == map["h1" := Finished(e1, "t1"), "h2" := Finished(e2, "t2"), "h3" := Finished(e1, "t1")]
    ensures s.store.tasks.Keys == {"t1", "t2"} && !SomeLive(s, e1.providerId, e1.pullRequest)
    ensures s.store.tasks["t1"].supersededBy == Some("t2") && s.store.tasks["t2"].supersededBy == Some("t1")
  {
    var s4 := TwoInSequence(e1, e2, dbNow);
    assert T.HasSourceKey(s4.store, "t1", e1.sourceKey);
    s := ThirdInSequence(s4, e1, e2, dbNow);
    SequentialRows(e1, e2, dbNow);
  }

  lemma ThirdInSequence(s4: Sys, e1: Event, e2: Event, dbNow: Time) returns (s: Sys)
    requires SameTarget(e1, e2) && !T.CreateRejected(InputOf(e1)) && "h3" !in s4.handlers
    requires T.HasSourceKey(s4.store, "t1", e1.sourceKey) && forall id :: T.HasSourceKey(s4.store, id, e1.sourceKey) ==> id == "t1"
    ensures s == Handle(s4, "h3", e1, "t3", dbNow)
    ensures s.handlers == s4.handlers["h3" := Finished(e1, "t1")]
    ensures s.store.tasks == T.SupersedeTasks(s4.store.tasks, e1.repositoryId, e1.providerId, e1.pullRequest, "t1", dbNow)
  {
    var s5 := Sys(s4.store, s4.handlers["h3" := Created(e1, "t1")]);
    assert Apply(s4, CreateStep("h3", e1, "t3", dbNow)) == s5 by { CreateKnown(s4, "h3", e1, "t3", dbNow, "t1"); }
    s := Apply(s5, SupersedeStep("h3", dbNow));
    FinishFresh(s5, "h3", dbNow);
    assert s5.handlers["h3" := Finished(e1, "t1")] == s4.handlers["h3" := Finished(e1, "t1")];
  }
}
