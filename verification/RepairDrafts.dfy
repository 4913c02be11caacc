/** How many draft pull requests one repair can have. */
module RepairDrafts {
  import opened Base
  import opened Repair
  import opened RepairRuns
  import opened Processor
  import A = Approvals
  import R = RepairRace

  function DraftsOf(drafts: seq<Draft>, r: Id): nat {
    if drafts == [] then 0
    else DraftsOf(drafts[..|drafts| - 1], r) + if drafts[|drafts| - 1].copy.id == r then 1 else 0
  }

  lemma OneMoreDraft(drafts: seq<Draft>, d: Draft, r: Id)
    ensures DraftsOf(drafts + [d], r) == DraftsOf(drafts, r) + if d.copy.id == r then 1 else 0
  {
    assert (drafts + [d])[..|drafts|] == drafts;
  }

  // ----- at most one draft when phases run alone and no publication is lost -----

  /** The actor has published repair r and has not stored that yet. */
  predicate HoldsDraft(a: Actor, r: Id) {
    a.Saving? && a.copy.id == r && a.copy.state == Published
  }

  predicate Accounted(s: Sys, r: Id) {
    IsPublished(s, r) || exists a :: a in s.actors && HoldsDraft(s.actors[a], r)
  }

  ghost predicate Single(s: Sys, r: Id) {
    DraftsOf(s.drafts, r) <= 1 && (DraftsOf(s.drafts, r) == 1 ==> Accounted(s, r))
  }

  /** A crash between publishing and storing the outcome. */
  predicate LosesPublication(s: Sys, step: Step, r: Id) {
    step.CrashStep? && step.actor in s.actors && HoldsDraft(s.actors[step.actor], r)
  }

  lemma OthersStay(h: Policy, s: Sys, step: Step, a: Id)
    requires a in s.actors && s.actors[a].Saving?
    requires (step.SaveStep? || step.CrashStep?) ==> step.actor != a
    ensures a in Apply(h, s, step).actors && Apply(h, s, step).actors[a] == s.actors[a]
  {
  }

  lemma HolderSaves(h: Policy, s: Sys, a: Id, now: Time, r: Id)
    requires a in s.actors && HoldsDraft(s.actors[a], r) && r in s.rows
    ensures IsPublished(Apply(h, s, SaveStep(a, now)), r)
  {
  }

  lemma StaysAccounted(h: Policy, s: Sys, step: Step, r: Id)
    requires Lone(s) && Alone(s, step) && Accounted(s, r) && !LosesPublication(s, step, r)
    ensures Accounted(Apply(h, s, step), r)
  {
    if IsPublished(s, r) {
      assert RowsStep(s.rows, Apply(h, s, step).rows) by { StepAlone(h, s, step); }
    } else {
      var a :| a in s.actors && HoldsDraft(s.actors[a], r);
      if step.SaveStep? && step.actor == a {
        HolderSaves(h, s, a, step.now, r);
      } else {
        OthersStay(h, s, step, a);
      }
    }
  }

  /** Nobody can be publishing a repair whose draft is accounted for. */
  lemma PublisherIsFirst(s: Sys, x: Id, r: Id)
    requires Lone(s) && x in s.actors && s.actors[x].Publishing? && s.actors[x].copy.id == r
    ensures !Accounted(s, r)
  {
    assert Near(s.rows[r].state, s.actors[x]);
  }

  lemma PublishStaysSingle(h: Policy, s: Sys, x: Id, answer: Publication, r: Id)
    requires Lone(s) && Single(s, r) && x in s.actors && s.actors[x].Publishing?
    ensures Single(Apply(h, s, PublishStep(x, answer)), r)
  {
    var c := s.actors[x].copy;
    var answered := PublishAnswered(h, c, answer);
    var s' := Apply(h, s, PublishStep(x, answer));
    assert s' == AfterPublish(s, x, answered);
    if answered.0.Some? {
      OneMoreDraft(s.drafts, answered.0.value, r);
      if c.id == r {
        PublisherIsFirst(s, x, r);
        assert HoldsDraft(s'.actors[x], r);
      }
    }
    if c.id != r || answered.0.None? {
      assert Alone(s, PublishStep(x, answer));
      if Accounted(s, r) { StaysAccounted(h, s, PublishStep(x, answer), r); }
    }
  }

  lemma StepStaysSingle(h: Policy, s: Sys, step: Step, r: Id)
    requires Lone(s) && Alone(s, step) && Single(s, r) && !LosesPublication(s, step, r)
    ensures Single(Apply(h, s, step), r)
  {
    if step.PublishStep? && step.actor in s.actors && s.actors[step.actor].Publishing? {
      PublishStaysSingle(h, s, step.actor, step.answer, r);
    } else {
      assert Apply(h, s, step).drafts == s.drafts;
      if Accounted(s, r) { StaysAccounted(h, s, step, r); }
    }
  }

  lemma {:induction false} SingleAlong(h: Policy, states: seq<Sys>, steps: seq<Step>, n: nat, r: Id)
    requires Behaviour(h, states, steps) && states[0] == START && n <= |steps|
    requires forall i :: 0 <= i < n ==> Alone(states[i], steps[i]) && !LosesPublication(states[i], steps[i], r)
    ensures Single(states[n], r)
  {
    if n > 0 {
      SingleAlong(h, states, steps, n - 1, r);
      assert Lone(states[n - 1]) by { LoneAlong(h, states, steps, n - 1); }
      StepStaysSingle(h, states[n - 1], steps[n - 1], r);
    }
  }

  /** With phases run one at a time and no crash between a publication and its save, a repair has at most
      one draft, however often it fails and is retried. */
  lemma AtMostOneDraft(h: Policy, states: seq<Sys>, steps: seq<Step>, n: nat, r: Id)
    requires Behaviour(h, states, steps) && states[0] == START && n <= |steps|
    requires forall i :: 0 <= i < n ==> Alone(states[i], steps[i]) && !LosesPublication(states[i], steps[i], r)
    ensures DraftsOf(states[n].drafts, r) <= 1
  {
    SingleAlong(h, states, steps, n, r);
  }

  // ----- both conditions are needed -----

  /** From an empty system to an idle one in which the patch of repair r is approved. */
  lemma PatchIsApproved(h: Policy, info: Info) returns (row: Row, requests: A.Requests)
    requires Standard(h) && ValidInfo(info) && !Blank(info.createdBy)
    ensures R.Reaches(h, START, R.Idle(row, requests)) && row.id == "r" && row.state == PatchApproved
    ensures PatchRefusal(h, row, Decoded(row)).None?
  {
    R.Created(h, info);
    var row1, requests1 := R.PlanStageRuns(h, info);
    R.ReachesJoined(h, START, R.Idle(NewRow("r", info, 0), map[]), R.Idle(row1, requests1));
    row, requests := R.PatchStageRuns(h, row1, requests1);
    R.ReachesJoined(h, START, R.Idle(row1, requests1), R.Idle(row, requests));
    R.SmallPatchIsAcceptable(info.baseSha);
  }

  function DraftFor(row: Row): Draft {
    Draft(row, Decoded(row), PublishCall(row))
  }

  /** A publication that the provider accepts, by an actor next to any others. */
  lemma Accepted(h: Policy, s: Sys, x: Id, row: Row, pr: PullRequest)
    requires x in s.actors && s.actors[x] == Publishing(row) && PatchRefusal(h, row, Decoded(row)).None?
    ensures var s' := Apply(h, s, PublishStep(x, Opened(pr)));
            s'.drafts == s.drafts + [DraftFor(row)] && s'.rows == s.rows
            && s'.actors == s.actors[x := Saving(row.(draft := Some(pr), state := Published, failureCode := NoFailure), ThenStop)]
  {
    var answered := PublishAnswered(h, row, Opened(pr));
    assert Apply(h, s, PublishStep(x, Opened(pr))) == AfterPublish(s, x, answered);
  }

  lemma PickedUp(h: Policy, s: Sys, x: Id, r: Id)
    requires x !in s.actors && r in s.rows && s.rows[r].state == PatchApproved
    ensures Apply(h, s, ProcessStep(x, r, true)) == s.(actors := s.actors[x := Publishing(s.rows[r])])
  {
  }

  /** Two workers at once: both open a draft, on the strength of one consumed approval. */
  lemma TwoWorkersTwoDrafts(h: Policy, info: Info, pr: PullRequest) returns (s: Sys)
    requires Standard(h) && ValidInfo(info) && !Blank(info.createdBy)
    ensures R.Reaches(h, START, s) && DraftsOf(s.drafts, "r") == 2
    ensures |s.drafts| == 2 && s.drafts[0].copy.patchApproval == s.drafts[1].copy.patchApproval
  {
    var row, requests := PatchIsApproved(h, info);
    var s0 := R.Idle(row, requests);
    PickedUp(h, s0, "v", "r");
    R.Then(h, START, s0, ProcessStep("v", "r", true));
    var s1 := s0.(actors := s0.actors["v" := Publishing(row)]);
    PickedUp(h, s1, "w", "r");
    R.Then(h, START, s1, ProcessStep("w", "r", true));
    var s2 := s1.(actors := s1.actors["w" := Publishing(row)]);
    Accepted(h, s2, "v", row, pr);
    R.Then(h, START, s2, PublishStep("v", Opened(pr)));
    var s3 := Apply(h, s2, PublishStep("v", Opened(pr)));
    Accepted(h, s3, "w", row, pr);
    R.Then(h, START, s3, PublishStep("w", Opened(pr)));
    s := Apply(h, s3, PublishStep("w", Opened(pr)));
    TwoOf(s.drafts, DraftFor(row), "r");
  }

  lemma TwoOf(drafts: seq<Draft>, d: Draft, r: Id)
    requires drafts == [d] + [d] && d.copy.id == r
    ensures DraftsOf(drafts, r) == 2
  {
    OneMoreDraft([], d, r);
    assert [] + [d] == [d];
    OneMoreDraft([d], d, r);
  }

  lemma Crashed(h: Policy, s: Sys, x: Id, a: Actor)
    requires x !in s.actors
    ensures Apply(h, s.(actors := s.actors[x := a]), CrashStep(x)) == s
  {
    assert s.actors[x := a] - {x} == s.actors;
  }

  /** One worker at a time, but a crash between the publication and its save: the next attempt publishes
      again, and no actor was at work when it began. */
  lemma CrashTwoDrafts(h: Policy, info: Info, pr: PullRequest) returns (again: Sys, s: Sys)
    requires Standard(h) && ValidInfo(info) && !Blank(info.createdBy)
    ensures R.Reaches(h, START, again) && again.actors == map[] && DraftsOf(again.drafts, "r") == 1
    ensures R.Reaches(h, again, s) && DraftsOf(s.drafts, "r") == 2
  {
    var row, requests := PatchIsApproved(h, info);
    var s0 := R.Idle(row, requests);
    again := PublishAndCrash(h, s0, row, pr);
    R.ReachesJoined(h, START, s0, again);
    R.ReachesItself(h, again);
    PickedUp(h, again, "w", "r");
    R.Then(h, again, again, ProcessStep("w", "r", true));
    var s1 := again.(actors := again.actors["w" := Publishing(row)]);
    Accepted(h, s1, "w", row, pr);
    R.Then(h, again, s1, PublishStep("w", Opened(pr)));
    s := Apply(h, s1, PublishStep("w", Opened(pr)));
    TwoOf(s.drafts, DraftFor(row), "r");
  }

  lemma PublishAndCrash(h: Policy, s0: Sys, row: Row, pr: PullRequest) returns (again: Sys)
    requires s0.actors == map[] && row.id in s0.rows && s0.rows[row.id] == row && row.state == PatchApproved && s0.drafts == []
    requires PatchRefusal(h, row, Decoded(row)).None?
    ensures R.Reaches(h, s0, again) && again.actors == map[] && again.rows == s0.rows
    ensures again.drafts == [DraftFor(row)] && DraftsOf(again.drafts, row.id) == 1
  {
    R.ReachesItself(h, s0);
    PickedUp(h, s0, "w", row.id);
    R.Then(h, s0, s0, ProcessStep("w", row.id, true));
    var s1 := s0.(actors := s0.actors["w" := Publishing(row)]);
    R.Then(h, s0, s1, PublishStep("w", Opened(pr)));
    var a := Saving(row.(draft := Some(pr), state := Published, failureCode := NoFailure), ThenStop);
    again := s0.(drafts := [DraftFor(row)]);
    var s2 := again.(actors := again.actors["w" := a]);
    assert Apply(h, s1, PublishStep("w", Opened(pr))) == s2 by { PublishedAlone(h, s0, row, pr); }
    Crashed(h, again, "w", a);
    R.Then(h, s0, s2, CrashStep("w"));
    OneMoreDraft([], DraftFor(row), row.id);
    assert [] + [DraftFor(row)] == [DraftFor(row)];
  }

  lemma PublishedAlone(h: Policy, s0: Sys, row: Row, pr: PullRequest)
    requires s0.actors == map[] && s0.drafts == [] && PatchRefusal(h, row, Decoded(row)).None?
    ensures Apply(h, s0.(actors := s0.actors["w" := Publishing(row)]), PublishStep("w", Opened(pr)))
         == s0.(drafts := [DraftFor(row)],
                actors := s0.actors["w" := Saving(row.(draft := Some(pr), state := Published, failureCode := NoFailure), ThenStop)])
  {
    var s1 := s0.(actors := s0.actors["w" := Publishing(row)]);
    assert Apply(h, s1, PublishStep("w", Opened(pr))) == AfterPublish(s1, "w", PublishAnswered(h, row, Opened(pr)));
    assert [] + [DraftFor(row)] == [DraftFor(row)];
  }
}
