/** The queue worker loop (worker/queue.go) as a client of the task store. Between its
    own transactions any number of other processes act: they are one function that may
    return any store reachable by fenced transactions. */
module Worker {
  import opened Base
  import opened Tasks
  import opened TaskProofs
  import opened TaskTheorems
  import TaskStore

  ghost predicate Path(states: seq<Store>, ops: seq<Op>, s: Store, s': Store) {
    Behaviour(states, ops) && states[0] == s && states[|ops|] == s' && forall i :: 0 <= i < |ops| ==> Fenced(ops[i])
  }

  /** Some interleaving of fenced transactions leads from s to s'. */
  ghost predicate Reaches(s: Store, s': Store) {
    exists states: seq<Store>, ops: seq<Op> :: Path(states, ops, s, s')
  }

  lemma ReachesItself(s: Store)
    ensures Reaches(s, s)
  {
    assert Path([s], [], s, s);
  }

  lemma ReachesOneMore(s: Store, s': Store, op: Op)
    requires Reaches(s, s') && Enabled(s', op) && Fenced(op)
    ensures Reaches(s, Apply(s', op))
  {
    var states: seq<Store>, ops: seq<Op> :| Path(states, ops, s, s');
    var more, next := ops + [op], states + [Apply(s', op)];
    forall i | 0 <= i < |more| ensures Step(next[i], more[i], next[i + 1]) {
      if i < |ops| { assert Step(states[i], ops[i], states[i + 1]); }
    }
    assert Path(next, more, s, Apply(s', op));
  }

  lemma ReachesJoined(a: Store, b: Store, c: Store)
    requires Reaches(a, b) && Reaches(b, c)
    ensures Reaches(a, c)
  {
    var states: seq<Store>, ops: seq<Op> :| Path(states, ops, a, b);
    var states', ops' :| Path(states', ops', b, c);
    var all, trace := ops + ops', states + states'[1..];
    forall i | 0 <= i < |all| ensures Step(trace[i], all[i], trace[i + 1]) && Fenced(all[i]) {
      if i < |ops| {
        assert Step(states[i], ops[i], states[i + 1]);
      } else {
        assert Step(states'[i - |ops|], ops'[i - |ops|], states'[i - |ops| + 1]);
      }
    }
    assert Path(trace, all, a, c);
  }

  /** What a worker may rely on however long it was away. */
  lemma WhileAway(s: Store, s': Store)
    requires Reaches(s, s') && Inv(s)
    ensures Inv(s')
    ensures forall r :: Over(s, r) ==> Over(s', r)
    ensures forall r :: r in s.runs ==> r in s'.runs && s'.runs[r].taskId == s.runs[r].taskId
  {
    var states: seq<Store>, ops: seq<Op> :| Path(states, ops, s, s');
    InvAlong(states, ops, |ops|);
    forall r | Over(s, r) ensures Over(s', r) {
      StoppedStaysStopped(states, ops, 0, |ops|, r);
    }
    forall r | r in s.runs ensures r in s'.runs && s'.runs[r].taskId == s.runs[r].taskId {
      RunStays(states, ops, 0, |ops|, r);
    }
  }

  /** Completing a run of this task ends it, unless the status is not one to complete with:
      either it was running and is closed now, or it had been closed by someone else. */
  lemma CompletionEndsTheRun(s: Store, id: Id, runId: Id, status: Status, code: string, message: string, now: Time)
    requires Inv(s) && runId in s.runs && s.runs[runId].taskId == id
    requires Finishing(status) || status == AwaitingApproval
    ensures var o := CompleteTask(s, id, runId, status, code, message, now);
      Over(o.store, runId) && (o.result == Ok(()) || o.result == Err(LeaseLost))
  {
  }

  /** One tick: what the store and the processor will be asked and answer. */
  datatype Tick = Tick(
    dbNow: Time, now: Time, runId: Id, correlationId: string, locked: set<Id>,
    process: (Task, Run) -> (Status, string, string), doneAt: Time)

  datatype WorkerError = BadArguments | QueueError(error: Error)

  lemma Advance(s: Store, op: Op)
    requires Inv(s) && Enabled(s, op) && Fenced(op)
    ensures Reaches(s, Apply(s, op)) && Inv(Apply(s, op))
  {
    ReachesItself(s);
    ReachesOneMore(s, s, op);
    StepKeepsInv(s, op);
  }

  // ----- exactly what a tick and a loop of ticks do -----

  /** The store after a tick, the error that stops the worker, and the run that was claimed. */
  datatype Served = Served(store: Store, error: Option<Error>, ran: Option<Id>)

  function ErrorOf<R>(r: Result<R, Error>): Option<Error> {
    if r.Err? then Some(r.error) else None
  }

  /** Others act while a claimed task is processed; then it is completed. */
  function Completed(s: Store, id: Id, task: Task, run: Run, tick: Tick, others: (Store, nat) -> Store, n: nat): Served {
    var (status, code, message) := tick.process(task, run);
    var done := CompleteTask(others(s, n), id, tick.runId, status, code, message, tick.doneAt);
    Served(done.store, ErrorOf(done.result), Some(tick.runId))
  }

  /** One claim; nothing to claim is no error; a claimed task is processed and completed. */
  function ServeTick(s: Store, owner: string, lease: Time, tick: Tick, others: (Store, nat) -> Store, n: nat, pick: Option<Id>): Served
    requires pick.Some? ==> pick.value in s.tasks
  {
    var claim := ClaimTask(s, owner, lease, tick.now, tick.runId, tick.correlationId, pick);
    match claim.result
    case Err(e) => Served(claim.store, if e == TaskNotFound then None else Some(e), None)
    case Ok((id, task, run)) => Completed(claim.store, id, task, run, tick, others, n)
  }

  datatype Setup = Setup(owner: string, lease: Time, ticks: seq<Tick>, others: (Store, nat) -> Store)

  datatype Looped = Looped(store: Store, error: Option<Error>, claimed: seq<Id>)

  /** Tick n of the loop: others act, then one task is served. */
  function NextTick(u: Setup, before: Looped, n: nat, pick: Option<Id>): Looped
    requires n < |u.ticks| && (pick.Some? ==> pick.value in u.others(before.store, 2 * n).tasks)
  {
    var turn := ServeTick(u.others(before.store, 2 * n), u.owner, u.lease, u.ticks[n], u.others, 2 * n + 1, pick);
    Looped(turn.store, turn.error, before.claimed + if turn.ran.Some? then [turn.ran.value] else [])
  }

  /** The loop after as many ticks as rows were picked. */
  ghost function Progress(u: Setup, start: Store, picks: seq<Option<Id>>): Looped
    requires |picks| <= |u.ticks|
  {
    if picks == [] then Looped(start, None, [])
    else
      var n := |picks| - 1;
      var before := Progress(u, start, picks[..n]);
      if picks[n].Some? && picks[n].value !in u.others(before.store, 2 * n).tasks then before
      else NextTick(u, before, n, picks[n])
  }

  /** Every pick is what the claiming query returns at its moment, and only the last tick may stop the worker. */
  ghost predicate Legal(u: Setup, start: Store, picks: seq<Option<Id>>) {
    && |picks| <= |u.ticks|
    && forall n :: 0 <= n < |picks| ==> LegalAt(u, start, picks, n)
  }

  ghost predicate LegalAt(u: Setup, start: Store, picks: seq<Option<Id>>, n: nat)
    requires n < |picks| <= |u.ticks|
  {
    var before := Progress(u, start, picks[..n]);
    before.error.None? && ValidPick(u.others(before.store, 2 * n).tasks, u.ticks[n].dbNow, u.ticks[n].locked, picks[n])
  }

  lemma LegalOneMore(u: Setup, start: Store, picks: seq<Option<Id>>, pick: Option<Id>)
    requires Legal(u, start, picks) && |picks| < |u.ticks| && Progress(u, start, picks).error.None?
    requires ValidPick(u.others(Progress(u, start, picks).store, 2 * |picks|).tasks, u.ticks[|picks|].dbNow, u.ticks[|picks|].locked, pick)
    ensures Legal(u, start, picks + [pick])
  {
    var more := picks + [pick];
    forall n | 0 <= n < |more|
      ensures LegalAt(u, start, more, n)
    {
      if n < |picks| {
        assert LegalAt(u, start, picks, n);
        assert more[..n] == picks[..n];
      } else {
        assert more[..n] == picks;
      }
    }
  }

  lemma ProgressOneMore(u: Setup, start: Store, picks: seq<Option<Id>>, pick: Option<Id>)
    requires |picks| < |u.ticks|
    requires pick.Some? ==> pick.value in u.others(Progress(u, start, picks).store, 2 * |picks|).tasks
    ensures Progress(u, start, picks + [pick]) == NextTick(u, Progress(u, start, picks), |picks|, pick)
  {
    assert (picks + [pick])[..|picks|] == picks;
  }

  // ----- what that guarantees -----

  ghost predicate Interferes(others: (Store, nat) -> Store) {
    forall s, n :: Reaches(s, others(s, n))
  }

  /** The worker stops only on these. */
  predicate Expected(error: Option<Error>) {
    error.None? || error == Some(InvalidStatus) || error == Some(LeaseLost) || error == Some(StorageError)
  }

  lemma CompletedIsSafe(s: Store, id: Id, task: Task, run: Run, tick: Tick, others: (Store, nat) -> Store, n: nat)
    requires Inv(s) && Interferes(others) && tick.runId in s.runs && s.runs[tick.runId].taskId == id
    ensures var t := Completed(s, id, task, run, tick, others, n);
            Reaches(s, t.store) && Inv(t.store) && Expected(t.error) && (t.error != Some(InvalidStatus) ==> Over(t.store, tick.runId))
  {
    var s2 := others(s, n);
    assert Reaches(s, s2);
    WhileAway(s, s2);
    var (status, code, message) := tick.process(task, run);
    Advance(s2, Complete(id, tick.runId, status, code, message, tick.doneAt));
    ReachesJoined(s, s2, CompleteTask(s2, id, tick.runId, status, code, message, tick.doneAt).store);
    if Finishing(status) || status == AwaitingApproval {
      CompletionEndsTheRun(s2, id, tick.runId, status, code, message, tick.doneAt);
    }
  }

  lemma TickIsSafe(s: Store, owner: string, lease: Time, tick: Tick, others: (Store, nat) -> Store, n: nat, pick: Option<Id>)
    requires Inv(s) && lease > 0 && !Blank(owner) && Interferes(others) && ValidPick(s.tasks, tick.dbNow, tick.locked, pick)
    ensures var t := ServeTick(s, owner, lease, tick, others, n, pick);
            && Reaches(s, t.store) && Inv(t.store) && Expected(t.error)
            && (t.ran.Some? && t.error != Some(InvalidStatus) ==> Over(t.store, t.ran.value))
  {
    Advance(s, Claim(owner, lease, tick.dbNow, tick.now, tick.runId, tick.correlationId, tick.locked, pick));
    var claim := ClaimTask(s, owner, lease, tick.now, tick.runId, tick.correlationId, pick);
    if claim.result.Ok? {
      var (id, task, run) := claim.result.value;
      CompletedIsSafe(claim.store, id, task, run, tick, others, n);
      ReachesJoined(s, claim.store, Completed(claim.store, id, task, run, tick, others, n).store);
    }
  }

  /** None of the claimed runs is running, unless a processor's status completed nothing. */
  ghost predicate AllOver(p: Looped) {
    p.error != Some(InvalidStatus) ==> forall i :: 0 <= i < |p.claimed| ==> Over(p.store, p.claimed[i])
  }

  /** The facts about one turn that the loop needs, from the store before it to the store after it. */
  ghost predicate SafeTurn(s: Store, s': Store, error: Option<Error>, ran: Option<Id>) {
    && Reaches(s, s') && Inv(s') && Expected(error)
    && (ran.Some? && error != Some(InvalidStatus) ==> Over(s', ran.value))
  }

  lemma TurnIsSafe(u: Setup, start: Store, n: nat, pick: Option<Id>)
    requires Inv(start) && u.lease > 0 && !Blank(u.owner) && Interferes(u.others) && n < |u.ticks|
    requires ValidPick(u.others(start, 2 * n).tasks, u.ticks[n].dbNow, u.ticks[n].locked, pick)
    ensures var t := ServeTick(u.others(start, 2 * n), u.owner, u.lease, u.ticks[n], u.others, 2 * n + 1, pick);
            SafeTurn(start, t.store, t.error, t.ran)
  {
    var s := u.others(start, 2 * n);
    assert Reaches(start, s);
    assert Inv(s) by { WhileAway(start, s); }
    TickIsSafe(s, u.owner, u.lease, u.ticks[n], u.others, 2 * n + 1, pick);
    ReachesJoined(start, s, ServeTick(s, u.owner, u.lease, u.ticks[n], u.others, 2 * n + 1, pick).store);
  }

  lemma TurnKeepsOver(before: Looped, s': Store, error: Option<Error>, ran: Option<Id>)
    requires Inv(before.store) && before.error.None? && AllOver(before) && SafeTurn(before.store, s', error, ran)
    ensures AllOver(Looped(s', error, before.claimed + if ran.Some? then [ran.value] else []))
  {
    assert forall r :: Over(before.store, r) ==> Over(s', r) by { WhileAway(before.store, s'); }
  }

  ghost predicate SafeLoop(start: Store, p: Looped) {
    Reaches(start, p.store) && Inv(p.store) && Expected(p.error) && AllOver(p)
  }

  lemma SafeLoopGoesOn(start: Store, before: Looped, s': Store, error: Option<Error>, ran: Option<Id>)
    requires SafeLoop(start, before) && before.error.None? && SafeTurn(before.store, s', error, ran)
    ensures SafeLoop(start, Looped(s', error, before.claimed + if ran.Some? then [ran.value] else []))
  {
    ReachesJoined(start, before.store, s');
    TurnKeepsOver(before, s', error, ran);
  }

  /** However other processes interleave, a loop of any number of ticks takes only fenced steps, stops only
      on the expected errors, and leaves none of the runs it claimed running unless a processor returned a
      status that is no completion. */
  lemma {:induction false} LoopIsSafe(u: Setup, start: Store, picks: seq<Option<Id>>)
    requires Inv(start) && u.lease > 0 && !Blank(u.owner) && Interferes(u.others) && Legal(u, start, picks)
    ensures SafeLoop(start, Progress(u, start, picks))
    decreases |picks|
  {
    if picks == [] {
      ReachesItself(start);
    } else {
      var n := |picks| - 1;
      var first, last := picks[..n], picks[n];
      LegalPrefix(u, start, picks, n);
      LoopIsSafe(u, start, first);
      assert LegalAt(u, start, picks, n);
      NextTickIsSafe(u, start, Progress(u, start, first), n, last);
    }
  }

  lemma NextTickIsSafe(u: Setup, start: Store, before: Looped, n: nat, pick: Option<Id>)
    requires u.lease > 0 && !Blank(u.owner) && Interferes(u.others) && n < |u.ticks| && SafeLoop(start, before) && before.error.None?
    requires ValidPick(u.others(before.store, 2 * n).tasks, u.ticks[n].dbNow, u.ticks[n].locked, pick)
    ensures SafeLoop(start, NextTick(u, before, n, pick))
  {
    TurnIsSafe(u, before.store, n, pick);
    var t := ServeTick(u.others(before.store, 2 * n), u.owner, u.lease, u.ticks[n], u.others, 2 * n + 1, pick);
    SafeLoopGoesOn(start, before, t.store, t.error, t.ran);
  }

  lemma LegalPrefix(u: Setup, start: Store, picks: seq<Option<Id>>, n: nat)
    requires Legal(u, start, picks) && n <= |picks|
    ensures Legal(u, start, picks[..n])
  {
    forall k | 0 <= k < n
      ensures LegalAt(u, start, picks[..n], k)
    {
      assert LegalAt(u, start, picks, k);
      assert picks[..n][..k] == picks[..k];
    }
  }

  // ----- the code -----

  /** Other processes act. */
  method Yield(store: TaskStore.PostgreSQLStore, others: (Store, nat) -> Store, n: nat)
    modifies store
    ensures store.State() == others(old(store.State()), n)
  {
    var next := others(Store(store.tasks, store.runs, store.events), n);
    store.tasks, store.runs, store.events := next.tasks, next.runs, next.events;
  }

  /** Processes a claimed task, while others act, and completes it. */
  method Finish(store: TaskStore.PostgreSQLStore, id: Id, task: Task, tick: Tick, run: Run, others: (Store, nat) -> Store, n: nat)
    returns (error: Option<Error>)
    modifies store
    ensures Served(store.State(), error, Some(tick.runId)) == Completed(old(store.State()), id, task, run, tick, others, n)
  {
    Yield(store, others, n);
    var (status, code, message) := tick.process(task, run);
    var done := store.CompleteTask(id, tick.runId, status, code, message, tick.doneAt);
    error := ErrorOf(done);
  }

  /** Claims at most one task, processes it and completes it. */
  method Serve(lease: Time, owner: string, store: TaskStore.PostgreSQLStore, tick: Tick, others: (Store, nat) -> Store, n: nat)
    returns (error: Option<Error>, ran: Option<Id>, ghost pick: Option<Id>)
    modifies store
    ensures ValidPick(old(store.tasks), tick.dbNow, tick.locked, pick)
    ensures Served(store.State(), error, ran) == ServeTick(old(store.State()), owner, lease, tick, others, n, pick)
    ensures Inv(old(store.State())) && lease > 0 && !Blank(owner) && Interferes(others) ==>
      Reaches(old(store.State()), store.State()) && Inv(store.State()) && Expected(error) && (ran.Some? && error != Some(InvalidStatus) ==> Over(store.State(), ran.value))
  {
    ghost var s0 := store.State();
    var claim;
    claim, pick := store.ClaimTask(owner, lease, tick.dbNow, tick.now, tick.runId, tick.correlationId, tick.locked);
    error, ran := None, None;
    if claim.Ok? {
      var (id, task, run) := claim.value;
      error := Finish(store, id, task, tick, run, others, n);
      ran := Some(tick.runId);
    } else if claim.error != TaskNotFound {
      error := Some(claim.error);
    }
    if Inv(s0) && lease > 0 && !Blank(owner) && Interferes(others) {
      TickIsSafe(s0, owner, lease, tick, others, n, pick);
    }
  }

  /** The loop does exactly what Progress says, tick by tick, until its ticks end or one stops it; LoopIsSafe
      says what that guarantees. */
  method RunQueue(poll: Time, u: Setup, store: TaskStore.PostgreSQLStore)
    returns (error: Option<WorkerError>, claimed: seq<Id>, ghost picks: seq<Option<Id>>)
    requires Inv(store.State()) && Interferes(u.others)
    modifies store
    ensures error == Some(BadArguments) <==> poll <= 0 || u.lease <= 0 || Blank(u.owner)
    ensures error == Some(BadArguments) ==> store.State() == old(store.State()) && claimed == []
    ensures error != Some(BadArguments) ==> Legal(u, old(store.State()), picks)
    ensures error != Some(BadArguments) ==>
      Looped(store.State(), if error.Some? then Some(error.value.error) else None, claimed) == Progress(u, old(store.State()), picks)
    ensures error.None? ==> |picks| == |u.ticks|
    ensures Reaches(old(store.State()), store.State()) && Inv(store.State())
    ensures error != Some(QueueError(InvalidStatus)) ==> forall i :: 0 <= i < |claimed| ==> Over(store.State(), claimed[i])
    ensures error.Some? && error.value.QueueError? ==> Expected(Some(error.value.error))
  {
    ghost var start := store.State();
    if poll <= 0 || u.lease <= 0 || Blank(u.owner) {
      ReachesItself(start);
      return Some(BadArguments), [], [];
    }
    var failed;
    failed, claimed, picks := TakeTicks(u, store);
    LoopIsSafe(u, start, picks);
    error := if failed.Some? then Some(QueueError(failed.value)) else None;
  }

  method TakeTicks(u: Setup, store: TaskStore.PostgreSQLStore)
    returns (error: Option<Error>, claimed: seq<Id>, ghost picks: seq<Option<Id>>)
    modifies store
    ensures Legal(u, old(store.State()), picks) && Looped(store.State(), error, claimed) == Progress(u, old(store.State()), picks)
    ensures error.None? ==> |picks| == |u.ticks|
  {
    error, claimed, picks := None, [], [];
    ghost var start := store.State();
    for n := 0 to |u.ticks|
      invariant |picks| == n && Legal(u, start, picks) && Progress(u, start, picks) == Looped(store.State(), None, claimed)
      invariant error.None?
    {
      ghost var pick;
      error, claimed, pick := TakeTick(u, store, n, claimed);
      LegalOneMore(u, start, picks, pick);
      ProgressOneMore(u, start, picks, pick);
      picks := picks + [pick];
      if error.Some? {
        return;
      }
    }
  }

  /** One tick of the loop: others act, then one task is served. */
  method TakeTick(u: Setup, store: TaskStore.PostgreSQLStore, n: nat, before: seq<Id>)
    returns (error: Option<Error>, claimed: seq<Id>, ghost pick: Option<Id>)
    requires n < |u.ticks|
    modifies store
    ensures ValidPick(u.others(old(store.State()), 2 * n).tasks, u.ticks[n].dbNow, u.ticks[n].locked, pick)
    ensures Looped(store.State(), error, claimed) == NextTick(u, Looped(old(store.State()), None, before), n, pick)
  {
    Yield(store, u.others, 2 * n);
    var ran;
    error, ran, pick := Serve(u.lease, u.owner, store, u.ticks[n], u.others, 2 * n + 1);
    claimed := before + if ran.Some? then [ran.value] else [];
  }
}
