/** An approval call that is cut off just before it re-queues the task, from empty stores: the
    task then waits for ever. */
module RepairStuck {
  import opened Base
  import opened Repair
  import opened RepairService
  import R = RepairRace
  import A = Approvals
  import P = ApprovalProofs
  import T = Tasks
  import W = Worker

  /** A task that was claimed and completed as awaiting approval. */
  lemma AwaitingTask(spec: T.TaskSpec, id: Id) returns (store: T.Store)
    requires spec.maxAttempts > 0 && id != ""
    ensures W.Reaches(T.EMPTY, store) && id in store.tasks && store.tasks[id].status == T.AwaitingApproval
  {
    var insert := T.Insert(spec, id, 0);
    var s1 := T.EMPTY.(tasks := map[id := T.NewTask(spec, 0)]);
    assert s1 == T.Apply(T.EMPTY, insert);
    W.ReachesItself(T.EMPTY);
    W.ReachesOneMore(T.EMPTY, T.EMPTY, insert);
    var claim := T.Claim("w", 1, 0, 0, "x", "c", {}, Some(id));
    assert T.Candidate(s1.tasks, 0, {}, id);
    var s2 := T.ClaimEffect(s1, "w", 1, 0, "x", "c", id);
    assert "w"[0] == 'w' && !IsSpace("w"[0]);
    assert s2 == T.Apply(s1, claim);
    W.ReachesOneMore(T.EMPTY, s1, claim);
    var complete := T.Complete(id, "x", T.AwaitingApproval, "", "", 0);
    W.ReachesOneMore(T.EMPTY, s2, complete);
    store := T.Apply(s2, complete);
  }

  function RipeCall(row: Row, digest: string): Call {
    Call(row.id, PlanPhase, digest, P.Key('a'), "u", "", 0, 0, 0)
  }

  /** A ripe approval is consumed, and the call goes on to store the repair. */
  lemma RipeCallResumes(w: World, row: Row, call: Call, cut: Cut)
    requires row.id in w.rows && w.rows[row.id] == row && R.Ripe(row, w.requests, PlanPhase) && cut != AfterConsume
    requires call == RipeCall(row, w.requests[row.planApproval].info.actionDigest)
    ensures ConsumeApproval(w, call, cut) == Resume(w.(requests := A.ConsumeChecked(w.requests, ConsumeOf(call, row)).requests), call, row, cut)
  {
    var c := R.Consumer(row, w.requests, PlanPhase);
    assert !Blank("u") by { assert "u"[0] == 'u'; }
    R.ConsumptionIsStored(w.requests, c);
    assert ConsumeInputOf(c, 0) == ConsumeOf(call, row);
  }

  /** Cut off after the repair was stored, the task stays where it was; uncut, it is queued. */
  ghost predicate Stuck(w: World, call: Call, task: Id) {
    && ConsumeApproval(w, call, AfterUpdate).1 == Err(Interrupted)
    && var again, uncut := ConsumeApproval(ConsumeApproval(w, call, AfterUpdate).0, call, Whole).0, ConsumeApproval(w, call, Whole).0;
       && task in again.store.tasks && again.store.tasks[task].status == T.AwaitingApproval
       && task in uncut.store.tasks && uncut.store.tasks[task].status == T.Queued
  }

  lemma RipeCallGetsStuck(w: World, row: Row, call: Call)
    requires row.id in w.rows && w.rows[row.id] == row && R.Ripe(row, w.requests, PlanPhase)
    requires call == RipeCall(row, w.requests[row.planApproval].info.actionDigest)
    requires row.info.taskId in w.store.tasks && w.store.tasks[row.info.taskId].status == T.AwaitingApproval
    ensures Stuck(w, call, row.info.taskId)
  {
    RipeCallResumes(w, row, call, AfterUpdate);
    RipeCallResumes(w, row, call, Whole);
    CutBeforeRetryNeverRetries(w, call, call, Whole);
  }

  /** Reachable, for every policy in force and every valid issue: a plan is approved and its task awaits
      approval; the call is cut off after it stored the repair. Uncut it would have queued the task; its
      replay answers at once and the task awaits approval still. */
  lemma StuckFromEmptyStores(h: Policy, info: Info, spec: T.TaskSpec) returns (s: Sys, w: World, call: Call)
    requires Standard(h) && ValidInfo(info) && !Blank(info.createdBy) && spec.maxAttempts > 0
    ensures R.Reaches(h, START, s) && W.Reaches(T.EMPTY, w.store) && w.rows == s.rows && w.requests == s.approvals.requests
    ensures Stuck(w, call, info.taskId)
  {
    R.Created(h, info);
    var row, requests := R.PlanIsRipe(h, info);
    R.ReachesJoined(h, START, R.Idle(NewRow("r", info, 0), map[]), R.Idle(row, requests));
    s := R.Idle(row, requests);
    assert info.taskId != "";
    var store := AwaitingTask(spec, info.taskId);
    w := World(s.rows, requests, store);
    call := RipeCall(row, requests[row.planApproval].info.actionDigest);
    assert Stuck(w, call, info.taskId) by { RipeCallGetsStuck(w, row, call); }
  }
}
