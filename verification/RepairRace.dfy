/** A whole run of the repair workflow, from an empty system to a published draft that a
    second worker then overwrites. */
module RepairRace {
  import opened Base
  import opened PatchPolicy
  import opened Repair
  import opened RepairProofs
  import RepairRuns
  import opened Processor
  import A = Approvals
  import P = ApprovalProofs

  // ----- runs -----

  ghost predicate Reaches(h: Policy, s: Sys, s': Sys) {
    exists steps :: Run(h, s, steps) == s'
  }

  lemma ReachesItself(h: Policy, s: Sys)
    ensures Reaches(h, s, s)
  {
    assert Run(h, s, []) == s;
  }

  lemma Then(h: Policy, s: Sys, s': Sys, step: Step)
    requires Reaches(h, s, s')
    ensures Reaches(h, s, Apply(h, s', step))
  {
    var steps :| Run(h, s, steps) == s';
    RunOneMore(h, s, steps, step);
  }

  // ----- the smallest plan and patch that pass every check -----

  const PLAN := Plan("v1", "x", [PlanStep("x", "x", [])], [])

  function PatchOn(base: string): Patch {
    Patch("v1", "x", base, "x", [File("x", "x", false, false)], [TestResult("x", "x", true, "")])
  }

  lemma OneLetter()
    ensures Trim("x") == "x" && !Blank("x") && Slashes("x") == "x" && Lower("x") == "x"
    ensures !ContainsAny("x", "\r\n")
  {
    assert "x"[0] == 'x' && !IsSpace('x');
    assert TrimLeft("x") == "x" && TrimRight("x") == "x";
    assert Slashes("x") == "x" && Lower("x") == "x";
  }

  lemma OneSegment()
    ensures Segments("x") == ["x"]
  {
    assert "x"[1..] == "" && Segments("") == [""];
    assert ['x'] + "" == "x" && [""][1..] == [];
  }

  lemma OneLetterHolds(part: string)
    requires |part| > 1
    ensures !Contains("x", part)
  {
  }

  lemma OneLetterIsNoSecret()
    ensures !HasSecret("x")
  {
    assert Lower("x") == "x";
    OneLetterHolds("ghp_");
    OneLetterHolds("github_pat_");
    OneLetterHolds("akia");
    OneLetterHolds("-----begin private key-----");
    OneLetterHolds("aws_secret_access_key");
    OneLetterHolds("xoxb-");
    OneLetterHolds("password=");
    OneLetterHolds("token=");
  }

  lemma OneLetterIsSafe()
    ensures SafeCommand("x")
  {
    OneLetter();
    forall part: string | |part| > 1
      ensures !Contains("x", part)
    {
      OneLetterHolds(part);
    }
  }

  lemma SmallPlanIsValid()
    ensures ValidPlan(PLAN)
  {
    OneLetter();
  }

  lemma SmallPatchIsAcceptable(base: string)
    requires IsHex(base, 40)
    ensures ValidatePatch(PatchOn(base), base).None?
  {
    OneLetter();
    OneSegment();
    OneLetterIsSafe();
    OneLetterIsNoSecret();
    var file := PatchOn(base).files[0];
    assert SafePath(file.path) by { assert "x" != ".."; }
    assert !Protected(file.path);
    assert SafeFile(file);
    assert TotalBytes(PatchOn(base).files) == 1 by { assert [file][1..] == []; }
    assert PassingTest(PatchOn(base).tests[0]);
    AcceptedExactly(PatchOn(base), base);
  }

  // ----- the phases, one after the other -----

  /** Only repair r exists and nobody is at work. */
  function Idle(row: Row, requests: A.Requests): Sys {
    System(map[row.id := row], requests, "w", None, [])
  }

  /** A new pending request for this digest and action, as a repair phase creates it. */
  predicate Waiting(requests: A.Requests, id: Id, phase: Phase, digest: string) {
    && id in requests && requests[id].state == A.Pending && P.Tidy(requests[id])
    && requests[id].info.action == ActionOf(phase) && requests[id].info.actionDigest == digest
  }

  lemma RequestIsStored(requests: A.Requests, copy: Row, phase: Phase, digest: string, id: Id)
    requires IsHex(digest, 64) && !Blank(copy.info.createdBy) && id !in requests && (id == "p" || id == "q")
    ensures var created := A.CreateChecked(requests, ApprovalInput(copy, phase, digest, 0), id, 0);
            && created.result.Ok? && created.requests.Keys == requests.Keys + {id} && Waiting(created.requests, id, phase, digest)
            && forall x :: x in requests ==> created.requests[x] == requests[x]
  {
    HexIsTrimmed(digest);
    assert Trim(id) == id by { assert id[0] == 'p' || id[0] == 'q'; }
  }

  lemma SavedAlone(h: Policy, row: Row, requests: A.Requests, a: Actor)
    requires a.Saving? && a.copy.id == row.id && a.copy.info == row.info
    ensures Apply(h, System(map[row.id := row], requests, "w", Some(a), []), SaveStep("w", 0))
         == System(map[row.id := a.copy.(updatedAt := 0)], requests, "w", AfterSave(a), [])
  {
    Saved(h, map[row.id := row], requests, "w", a, [], 0);
  }

  /** Taking the row up and saving the copy that the phase starts with. */
  lemma PhaseStarts(h: Policy, row: Row, requests: A.Requests, copy: Row, next: Next)
    requires Dispatch(row, true) == Some(Saving(copy, next)) && copy.id == row.id && copy.info == row.info
    ensures Reaches(h, Idle(row, requests), System(map[row.id := copy.(updatedAt := 0)], requests, "w", AfterSave(Saving(copy, next)), []))
  {
    var s0 := Idle(row, requests);
    ReachesItself(h, s0);
    Dispatched(h, map[row.id := row], requests, "w", [], row.id, true);
    Then(h, s0, s0, ProcessStep("w", row.id, true));
    SavedAlone(h, row, requests, Saving(copy, next));
    Then(h, s0, System(map[row.id := row], requests, "w", Some(Saving(copy, next)), []), SaveStep("w", 0));
  }

  /** Saving what a phase ends with. */
  lemma PhaseEnds(h: Policy, s0: Sys, row: Row, requests: A.Requests, copy: Row)
    requires Reaches(h, s0, System(map[row.id := row], requests, "w", Some(Saving(copy, ThenStop)), [])) && copy.id == row.id && copy.info == row.info
    ensures Reaches(h, s0, Idle(copy.(updatedAt := 0), requests))
  {
    SavedAlone(h, row, requests, Saving(copy, ThenStop));
    Then(h, s0, System(map[row.id := row], requests, "w", Some(Saving(copy, ThenStop)), []), SaveStep("w", 0));
  }

  lemma PlanIsAsked(h: Policy, s0: Sys, row: Row, requests: A.Requests, copy: Row) returns (requests': A.Requests)
    requires Standard(h) && !Blank(copy.info.createdBy) && "p" !in requests
    requires Reaches(h, s0, System(map[row.id := row], requests, "w", Some(Drafting(copy)), []))
    ensures Reaches(h, s0, System(map[row.id := row], requests', "w", Some(Saving(PlanStored(copy, PLAN, h.plan(PLAN), "p"), ThenStop)), []))
    ensures Waiting(requests', "p", PlanPhase, h.plan(PLAN)) && requests'.Keys == requests.Keys + {"p"}
  {
    var w := Work(Some(PLAN), None, "", "p", NoProvider, 0, 0, 0);
    Drafted(h, map[row.id := row], requests, "w", copy, [], w);
    Then(h, s0, System(map[row.id := row], requests, "w", Some(Drafting(copy)), []), DraftStep("w", w.plan, w.approval, w.askedAt, w.code));
    assert h.planOk(PLAN) by { SmallPlanIsValid(); }
    RequestIsStored(requests, copy, PlanPhase, h.plan(PLAN), "p");
    requests' := A.CreateChecked(requests, ApprovalInput(copy, PlanPhase, h.plan(PLAN), 0), "p", 0).requests;
  }

  lemma PatchIsAsked(h: Policy, s0: Sys, row: Row, requests: A.Requests, copy: Row, patch: Patch) returns (requests': A.Requests)
    requires Standard(h) && !Blank(copy.info.createdBy) && IsHex(copy.info.baseSha, 40) && patch == PatchOn(copy.info.baseSha) && "q" !in requests
    requires Reaches(h, s0, System(map[row.id := row], requests, "w", Some(Coding(copy)), []))
    ensures Reaches(h, s0, System(map[row.id := row], requests', "w", Some(Saving(PatchStored(copy, patch, h.patch(patch), "q"), ThenStop)), []))
    ensures Waiting(requests', "q", PatchPhase, h.patch(patch)) && requests'.Keys == requests.Keys + {"q"}
  {
    var w := Work(None, Some(patch), "", "q", NoProvider, 0, 0, 0);
    Coded(h, map[row.id := row], requests, "w", copy, [], w);
    Then(h, s0, System(map[row.id := row], requests, "w", Some(Coding(copy)), []), CodeStep("w", w.patch, w.approval, w.askedAt, w.code));
    assert h.patchError(patch, copy.info.baseSha).None? by { SmallPatchIsAcceptable(copy.info.baseSha); }
    RequestIsStored(requests, copy, PatchPhase, h.patch(patch), "q");
    requests' := A.CreateChecked(requests, ApprovalInput(copy, PatchPhase, h.patch(patch), 0), "q", 0).requests;
  }

  lemma PlanPhaseRuns(h: Policy, row: Row, requests: A.Requests) returns (row': Row, requests': A.Requests)
    requires Standard(h) && row.state == Planning && !Blank(row.info.createdBy) && "p" !in requests
    ensures Reaches(h, Idle(row, requests), Idle(row', requests'))
    ensures row'.id == row.id && row'.info == row.info && row'.state == AwaitingPlanApproval && row'.planApproval == "p"
    ensures Waiting(requests', "p", PlanPhase, h.plan(PLAN)) && requests'.Keys == requests.Keys + {"p"}
  {
    var s0, row1 := Idle(row, requests), row.(updatedAt := 0);
    PhaseStarts(h, row, requests, row, ThenDraft);
    requests' := PlanIsAsked(h, s0, row1, requests, row);
    var stored := PlanStored(row, PLAN, h.plan(PLAN), "p");
    PhaseEnds(h, s0, row1, requests', stored);
    row' := stored.(updatedAt := 0);
  }

  lemma PatchPhaseRuns(h: Policy, row: Row, requests: A.Requests) returns (row': Row, requests': A.Requests)
    requires Standard(h) && row.state == PlanApproved && !Blank(row.info.createdBy) && IsHex(row.info.baseSha, 40) && "q" !in requests
    ensures Reaches(h, Idle(row, requests), Idle(row', requests'))
    ensures row'.id == row.id && row'.info == row.info && row'.state == AwaitingPatchApproval && row'.patchApproval == "q"
    ensures row'.patch == Some(PatchOn(row.info.baseSha)) && Waiting(requests', "q", PatchPhase, h.patch(PatchOn(row.info.baseSha)))
    ensures requests'.Keys == requests.Keys + {"q"}
  {
    var s0, copy, patch := Idle(row, requests), row.(state := Patching), PatchOn(row.info.baseSha);
    PhaseStarts(h, row, requests, copy, ThenCode);
    requests' := PatchIsAsked(h, s0, copy.(updatedAt := 0), requests, copy, patch);
    var stored := PatchStored(copy, patch, h.patch(patch), "q");
    PhaseEnds(h, s0, copy.(updatedAt := 0), requests', stored);
    row' := stored.(updatedAt := 0);
  }

  lemma ApprovalRuns(h: Policy, row: Row, requests: A.Requests, id: Id) returns (requests': A.Requests)
    requires (id == "p" || id == "q") && id in requests && requests[id].state == A.Pending && P.Tidy(requests[id])
    requires forall x :: x in requests ==> Trim(x) == x
    ensures Reaches(h, Idle(row, requests), Idle(row, requests'))
    ensures requests'.Keys == requests.Keys && requests'[id].state == A.Approved && P.Tidy(requests'[id]) && requests'[id].info == requests[id].info
  {
    var s0 := Idle(row, requests);
    var input := P.PendingCanBeApproved(s0.approvals, id, "c");
    var check, commit := ApprovalStep(A.CheckDecideStep("c", input)), ApprovalStep(A.CommitStep("c"));
    ReachesItself(h, s0);
    Then(h, s0, s0, check);
    Then(h, s0, Apply(h, s0, check), commit);
    var s2 := Apply(h, Apply(h, s0, check), commit);
    requests' := requests[id := A.DecidedRow(requests[id], input)];
    assert s2.approvals.requests == requests';
    CallsGone(s0.approvals, input);
    assert s2 == Idle(row, requests');
  }

  /** The check leaves one call, and the commit takes it away. */
  lemma CallsGone(s: A.Sys, input: A.DecisionInput)
    requires s.calls == map[]
    ensures A.Apply(A.Apply(s, A.CheckDecideStep("c", input)), A.CommitStep("c")).calls == map[]
  {
  }

  /** An approved request of the right action for a row that awaits it. */
  predicate Ripe(row: Row, requests: A.Requests, phase: Phase) {
    && row.state == Awaiting(phase) && ApprovalOf(row, phase) in requests && ApprovalOf(row, phase) != ""
    && var q := requests[ApprovalOf(row, phase)];
       q.state == A.Approved && P.Tidy(q) && q.info.action == ActionOf(phase) && IsHex(q.info.actionDigest, 64)
  }

  function Consumer(row: Row, requests: A.Requests, phase: Phase): Actor
    requires ApprovalOf(row, phase) in requests
  {
    Consuming(row, phase, requests[ApprovalOf(row, phase)].info.actionDigest, P.Key('a'), "u")
  }

  lemma ConsumptionBegins(h: Policy, row: Row, requests: A.Requests, phase: Phase)
    requires Ripe(row, requests, phase)
    ensures var c := Consumer(row, requests, phase);
            Apply(h, Idle(row, requests), ConsumeStartStep("w", row.id, phase, c.digest, c.key, c.actorId))
            == System(map[row.id := row], requests, "w", Some(c), [])
  {
    assert "u"[0] == 'u' && !Blank("u");
  }

  lemma ConsumptionHappens(h: Policy, row: Row, requests: A.Requests, phase: Phase)
    requires Ripe(row, requests, phase)
    ensures var c, id := Consumer(row, requests, phase), ApprovalOf(row, phase);
            Apply(h, System(map[row.id := row], requests, "w", Some(c), []), ConsumeStep("w", 0))
            == System(map[row.id := row], requests[id := A.ConsumedRow(requests[id], ConsumeInputOf(c, 0))], "w",
                      Some(Saving(row.(state := NextApproved(phase), failureCode := NoFailure), ThenStop)), [])
  {
    var c := Consumer(row, requests, phase);
    assert !Blank(c.actorId) by { assert "u"[0] == 'u'; }
    ConsumptionIsStored(requests, c);
    var consumed := A.ConsumeChecked(requests, ConsumeInputOf(c, 0));
    var s := System(map[row.id := row], requests, "w", Some(c), []);
    var next := Saving(row.(state := NextApproved(phase), failureCode := NoFailure), ThenStop);
    assert ConsumeAnswered(c, consumed.result) == Some(next);
    assert Apply(h, s, ConsumeStep("w", 0)) == Put(s.(approvals := s.approvals.(requests := consumed.requests)), "w", Some(next));
  }

  lemma ConsumptionRuns(h: Policy, row: Row, requests: A.Requests, phase: Phase) returns (row': Row, requests': A.Requests)
    requires Ripe(row, requests, phase)
    ensures Reaches(h, Idle(row, requests), Idle(row', requests')) && requests'.Keys == requests.Keys
    ensures row' == row.(state := NextApproved(phase), failureCode := NoFailure, updatedAt := 0)
  {
    var s0, c, id := Idle(row, requests), Consumer(row, requests, phase), ApprovalOf(row, phase);
    ReachesItself(h, s0);
    ConsumptionBegins(h, row, requests, phase);
    Then(h, s0, s0, ConsumeStartStep("w", row.id, phase, c.digest, c.key, c.actorId));
    ConsumptionHappens(h, row, requests, phase);
    Then(h, s0, System(map[row.id := row], requests, "w", Some(c), []), ConsumeStep("w", 0));
    requests' := requests[id := A.ConsumedRow(requests[id], ConsumeInputOf(c, 0))];
    var a := Saving(row.(state := NextApproved(phase), failureCode := NoFailure), ThenStop);
    SavedAlone(h, row, requests', a);
    Then(h, s0, System(map[row.id := row], requests', "w", Some(a), []), SaveStep("w", 0));
    row' := a.copy.(updatedAt := 0);
  }

  lemma ConsumptionIsStored(requests: A.Requests, c: Actor)
    requires c.Consuming? && c.key == P.Key('a') && !Blank(c.actorId) && ApprovalOf(c.copy, c.phase) in requests
    requires var q := requests[ApprovalOf(c.copy, c.phase)];
             q.state == A.Approved && P.Tidy(q) && q.info.actionDigest == c.digest && IsHex(c.digest, 64)
    ensures var id := ApprovalOf(c.copy, c.phase);
            var row := A.ConsumedRow(requests[id], ConsumeInputOf(c, 0));
            A.ConsumeChecked(requests, ConsumeInputOf(c, 0)) == A.Outcome(requests[id := row], Ok(row))
  {
    HexIsTrimmed(c.digest);
    P.KeysAreValid('a');
  }

  // ----- the whole run -----

  lemma ReachesJoined(h: Policy, a: Sys, b: Sys, c: Sys)
    requires Reaches(h, a, b) && Reaches(h, b, c)
    ensures Reaches(h, a, c)
  {
    var xs :| Run(h, a, xs) == b;
    var ys :| Run(h, b, ys) == c;
    RunJoined(h, a, xs, ys);
  }

  lemma {:induction false} RunJoined(h: Policy, s: Sys, xs: seq<Step>, ys: seq<Step>)
    ensures Run(h, s, xs + ys) == Run(h, Run(h, s, xs), ys)
    decreases |ys|
  {
    if ys == [] {
      assert xs + ys == xs;
    } else {
      var n := |ys| - 1;
      assert (xs + ys)[..|xs + ys| - 1] == xs + ys[..n];
      RunJoined(h, s, xs, ys[..n]);
    }
  }

  lemma Created(h: Policy, info: Info)
    requires ValidInfo(info)
    ensures Reaches(h, START, Idle(NewRow("r", info, 0), map[]))
  {
    ReachesItself(h, START);
    Then(h, START, START, CreateStep("r", info, 0));
    assert Create(map[], "r", info, 0) == map["r" := NewRow("r", info, 0)];
  }

  lemma TrimmedNames()
    ensures Trim("p") == "p" && Trim("q") == "q"
  {
    assert "p"[0] == 'p' && "q"[0] == 'q';
  }

  /** A plan whose approval has been given and not yet consumed. */
  lemma PlanIsRipe(h: Policy, info: Info) returns (row: Row, requests: A.Requests)
    requires Standard(h) && !Blank(info.createdBy)
    ensures Reaches(h, Idle(NewRow("r", info, 0), map[]), Idle(row, requests))
    ensures row.id == "r" && row.info == info && requests.Keys == {"p"} && Ripe(row, requests, PlanPhase)
  {
    var s0 := Idle(NewRow("r", info, 0), map[]);
    var requests1;
    row, requests1 := PlanPhaseRuns(h, NewRow("r", info, 0), map[]);
    TrimmedNames();
    requests := ApprovalRuns(h, row, requests1, "p");
    ReachesJoined(h, s0, Idle(row, requests1), Idle(row, requests));
  }

  /** The first stage: plan, approval, consumption. */
  lemma PlanStageRuns(h: Policy, info: Info) returns (row: Row, requests: A.Requests)
    requires Standard(h) && !Blank(info.createdBy)
    ensures Reaches(h, Idle(NewRow("r", info, 0), map[]), Idle(row, requests))
    ensures row.id == "r" && row.info == info && row.state == PlanApproved && requests.Keys == {"p"}
  {
    var row1, requests1 := PlanIsRipe(h, info);
    row, requests := ConsumptionRuns(h, row1, requests1, PlanPhase);
    ReachesJoined(h, Idle(NewRow("r", info, 0), map[]), Idle(row1, requests1), Idle(row, requests));
  }

  /** The second stage: patch, approval, consumption. */
  lemma PatchStageRuns(h: Policy, row: Row, requests: A.Requests) returns (row': Row, requests': A.Requests)
    requires Standard(h) && row.state == PlanApproved && !Blank(row.info.createdBy) && IsHex(row.info.baseSha, 40) && requests.Keys == {"p"}
    ensures Reaches(h, Idle(row, requests), Idle(row', requests'))
    ensures row'.id == row.id && row'.info == row.info && row'.state == PatchApproved && row'.patch == Some(PatchOn(row.info.baseSha))
  {
    var s0 := Idle(row, requests);
    var row1, requests1 := PatchPhaseRuns(h, row, requests);
    TrimmedNames();
    var requests2 := ApprovalRuns(h, row1, requests1, "q");
    ReachesJoined(h, s0, Idle(row1, requests1), Idle(row1, requests2));
    row', requests' := ConsumptionRuns(h, row1, requests2, PatchPhase);
    ReachesJoined(h, s0, Idle(row1, requests2), Idle(row', requests'));
  }

  /** From the empty system, for every policy in force and every valid issue: plan, approve, patch, approve;
      two workers start publishing, the first succeeds and the repair is published; the second is declined
      and the repair is failed. */
  lemma StaleWorkerOverwritesPublished(h: Policy, info: Info, pr: PullRequest) returns (published: Sys, failed: Sys)
    requires Standard(h) && ValidInfo(info) && !Blank(info.createdBy)
    ensures Reaches(h, START, published) && RepairRuns.IsPublished(published, "r")
    ensures Reaches(h, published, failed) && "r" in failed.rows && failed.rows["r"].state == Failed
  {
    Created(h, info);
    var row1, requests1 := PlanStageRuns(h, info);
    ReachesJoined(h, START, Idle(NewRow("r", info, 0), map[]), Idle(row1, requests1));
    var row, requests := PatchStageRuns(h, row1, requests1);
    ReachesJoined(h, START, Idle(row1, requests1), Idle(row, requests));
    published, failed := RaceRuns(h, row, requests, pr);
    ReachesJoined(h, START, Idle(row, requests), published);
  }

  lemma RaceRuns(h: Policy, row: Row, requests: A.Requests, pr: PullRequest) returns (published: Sys, failed: Sys)
    requires Standard(h) && row.id == "r" && row.state == PatchApproved && IsHex(row.info.baseSha, 40)
    requires row.patch == Some(PatchOn(row.info.baseSha))
    ensures Reaches(h, Idle(row, requests), published) && RepairRuns.IsPublished(published, "r")
    ensures Reaches(h, published, failed) && "r" in failed.rows && failed.rows["r"].state == Failed
  {
    var s := Idle(row, requests);
    SmallPatchIsAcceptable(row.info.baseSha);
    RepairRuns.SecondWorkerOverwrites(h, s, "r", "v", "w", pr, 0);
    var s1 := Apply(h, s, ProcessStep("v", "r", true));
    var s2 := Apply(h, s1, ProcessStep("w", "r", true));
    var s3 := Apply(h, s2, PublishStep("v", Opened(pr)));
    published := Apply(h, s3, SaveStep("v", 0));
    var s5 := Apply(h, published, PublishStep("w", Declined));
    failed := Apply(h, s5, SaveStep("w", 0));
    ReachesItself(h, s);
    Then(h, s, s, ProcessStep("v", "r", true));
    Then(h, s, s1, ProcessStep("w", "r", true));
    Then(h, s, s2, PublishStep("v", Opened(pr)));
    Then(h, s, s3, SaveStep("v", 0));
    ReachesItself(h, published);
    Then(h, published, published, PublishStep("w", Declined));
    Then(h, published, s5, SaveStep("w", 0));
  }
}
