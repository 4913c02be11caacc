/** The configuration checks of automation templates, and what they guarantee of
    every stored template. */
module AutomationPolicy {
  import opened Base
  import opened Automations
  import T = Tasks
  import TT = AutomationTheorems

  predicate CleanText(value: string) {
    value != "" && |value| <= 200 && !ContainsAny(value, "\r\n\t")
  }

  predicate DistinctTrimmed(values: seq<string>) {
    forall i, j :: 0 <= i < j < |values| ==> Trim(values[i]) != Trim(values[j])
  }

  predicate ValidScope(scope: seq<string>) {
    && 0 < |scope| <= 100 && DistinctTrimmed(scope)
    && forall i :: 0 <= i < |scope| ==> CleanText(Trim(scope[i])) && Trim(scope[i]) != "*"
  }

  function AllowedEvent(kind: T.Kind): string {
    match kind
    case CodeReview => "pull_request"
    case CIDiagnosis => "workflow_run"
    case IssueRepair => "issues"
    case OtherKind(_) => ""
  }

  predicate AllowedAction(event: string, action: string) {
    if event == "pull_request" then
      action == "opened" || action == "reopened" || action == "synchronize" || action == "ready_for_review"
    else if event == "workflow_run" then action == "completed"
    else event == "issues" && (action == "opened" || action == "reopened")
  }

  predicate ValidFilter(kind: T.Kind, f: Filter) {
    && f.event == AllowedEvent(kind) && 0 < |f.actions| <= 20 && DistinctTrimmed(f.actions)
    && (forall i :: 0 <= i < |f.actions| ==> AllowedAction(f.event, Trim(f.actions[i])))
    && (forall i :: 0 <= i < |f.branches| ==> CleanText(Trim(f.branches[i])))
  }

  predicate ValidNumbers(c: Config) {
    1 <= c.budget <= 100000 && 30 <= c.timeout <= 3600 && 1 <= c.limit <= 20
  }

  predicate ValidRisk(c: Config) {
    && (c.risk == "low" || c.risk == "medium" || c.risk == "high" || c.risk == "critical")
    && (c.approval == "required" || (c.approval == "risk_based" && c.risk != "critical"))
  }

  predicate ValidTexts(c: Config) {
    && 1 <= |Trim(c.name)| <= 120 && |Trim(c.description)| <= 2000 && c.provider == "github" && T.ValidKind(c.kind)
    && 1 <= |Trim(c.agent)| <= 200
  }

  predicate ValidFilters(c: Config) {
    0 < |c.filters| <= 20 && forall i :: 0 <= i < |c.filters| ==> ValidFilter(c.kind, c.filters[i])
  }

  predicate ValidConfig(c: Config) {
    ValidTexts(c) && ValidScope(c.scope) && ValidFilters(c) && ValidNumbers(c) && ValidRisk(c)
  }

  // ----- the loops -----

  lemma CleanTextRule(value: string)
    ensures CleanText(value) <==> value != "" && |value| <= 200 && '\r' !in value && '\n' !in value && '\t' !in value
  {
    assert "\r\n\t"[0] == '\r' && "\r\n\t"[1] == '\n' && "\r\n\t"[2] == '\t';
  }

  /** One pass with a map of what was seen accepts exactly the clean, pairwise distinct lists. */
  method CheckScope(scope: seq<string>) returns (ok: bool)
    ensures ok == ValidScope(scope)
  {
    if |scope| == 0 || |scope| > 100 { return false; }
    var seen: set<string> := {};
    var i := 0;
    while i < |scope|
      invariant 0 <= i <= |scope| && seen == set k | 0 <= k < i :: Trim(scope[k])
      invariant forall k :: 0 <= k < i ==> CleanText(Trim(scope[k])) && Trim(scope[k]) != "*"
      invariant forall k, l :: 0 <= k < l < i ==> Trim(scope[k]) != Trim(scope[l])
    {
      var repository := Trim(scope[i]);
      if repository == "" || |repository| > 200 || '\r' in repository || '\n' in repository || '\t' in repository || repository == "*" {
        CleanTextRule(repository);
        return false;
      }
      CleanTextRule(repository);
      if repository in seen { return false; }
      seen := seen + {repository};
      i := i + 1;
    }
    return true;
  }

  method CheckFilter(kind: T.Kind, f: Filter) returns (ok: bool)
    ensures ok == ValidFilter(kind, f)
  {
    var expected := match kind
      case CodeReview => "pull_request"
      case CIDiagnosis => "workflow_run"
      case IssueRepair => "issues"
      case OtherKind(_) => "";
    if f.event != expected || |f.actions| == 0 || |f.actions| > 20 { return false; }
    var fine := CheckActions(f.event, f.actions);
    if !fine { return false; }
    var i := 0;
    while i < |f.branches|
      invariant 0 <= i <= |f.branches| && forall k :: 0 <= k < i ==> CleanText(Trim(f.branches[k]))
    {
      var branch := Trim(f.branches[i]);
      CleanTextRule(branch);
      if branch == "" || |branch| > 200 || '\r' in branch || '\n' in branch || '\t' in branch { return false; }
      i := i + 1;
    }
    return true;
  }

  method CheckActions(event: string, actions: seq<string>) returns (ok: bool)
    ensures ok <==> DistinctTrimmed(actions) && forall i :: 0 <= i < |actions| ==> AllowedAction(event, Trim(actions[i]))
  {
    var seen: set<string> := {};
    var i := 0;
    while i < |actions|
      invariant 0 <= i <= |actions| && seen == set k | 0 <= k < i :: Trim(actions[k])
      invariant forall k :: 0 <= k < i ==> AllowedAction(event, Trim(actions[k]))
      invariant forall k, l :: 0 <= k < l < i ==> Trim(actions[k]) != Trim(actions[l])
    {
      var action := Trim(actions[i]);
      var supported := false;
      if event == "pull_request" {
        supported := action == "opened" || action == "reopened" || action == "synchronize" || action == "ready_for_review";
      } else if event == "workflow_run" {
        supported := action == "completed";
      } else if event == "issues" {
        supported := action == "opened" || action == "reopened";
      }
      if !supported || action in seen { return false; }
      seen := seen + {action};
      i := i + 1;
    }
    return true;
  }

  method CheckFilters(kind: T.Kind, filters: seq<Filter>) returns (ok: bool)
    ensures ok == forall k :: 0 <= k < |filters| ==> ValidFilter(kind, filters[k])
  {
    var i := 0;
    while i < |filters|
      invariant 0 <= i <= |filters| && forall k :: 0 <= k < i ==> ValidFilter(kind, filters[k])
    {
      var fine := CheckFilter(kind, filters[i]);
      if !fine { return false; }
      i := i + 1;
    }
    return true;
  }

  method Validate(c: Config) returns (ok: bool)
    ensures ok == ValidConfig(c)
  {
    var scope := CheckScope(c.scope);
    if |Trim(c.name)| < 1 || |Trim(c.name)| > 120 || |Trim(c.description)| > 2000 { return false; }
    if c.provider != "github" || c.kind.OtherKind? { return false; }
    if !scope || |c.filters| == 0 || |c.filters| > 20 { return false; }
    var filters := CheckFilters(c.kind, c.filters);
    if !filters { return false; }
    if |Trim(c.agent)| < 1 || |Trim(c.agent)| > 200 { return false; }
    if c.budget < 1 || c.budget > 100000 || c.timeout < 30 || c.timeout > 3600 || c.limit < 1 || c.limit > 20 { return false; }
    if c.risk != "low" && c.risk != "medium" && c.risk != "high" && c.risk != "critical" { return false; }
    if c.approval != "required" && c.approval != "risk_based" { return false; }
    return c.risk != "critical" || c.approval == "required";
  }

  // ----- stored templates -----

  /** The stored, trimmed form of a valid configuration is valid again. */
  lemma StoredIsValid(c: Config)
    requires ValidConfig(c)
    ensures ValidConfig(Stored(c))
  {
    TrimTwice(c.name);
    TrimTwice(c.description);
    TrimTwice(c.agent);
  }

  /** The policy in force. */
  ghost predicate Standard(p: Policy) {
    && (forall c :: p.ok(c) == ValidConfig(c))
    && (forall c, provider, event, action, branch, repository ::
          p.matches(c, provider, event, action, branch, repository) == Matches(c, provider, event, action, branch, repository))
  }

  ghost predicate Storable(p: Policy) {
    forall c :: p.ok(c) ==> p.ok(Stored(c))
  }

  lemma StandardIsStorable(p: Policy)
    requires Standard(p)
    ensures Storable(p)
  {
    forall c | p.ok(c)
      ensures p.ok(Stored(c))
    {
      StoredIsValid(c);
    }
  }

  ghost predicate AllValid(p: Policy, s: Sys) {
    forall id :: id in s.templates ==> p.ok(s.templates[id].config)
  }

  lemma StepKeepsValid(p: Policy, s: Sys, step: Step)
    requires Storable(p) && AllValid(p, s) && Enabled(s, step)
    ensures AllValid(p, Apply(p, s, step))
  {
  }

  lemma {:induction false} ValidAlong(p: Policy, states: seq<Sys>, steps: seq<Step>, n: nat)
    requires Storable(p) && Behaviour(p, states, steps) && states[0] == START && n <= |steps|
    ensures AllValid(p, states[n])
  {
    if n > 0 {
      ValidAlong(p, states, steps, n - 1);
      assert Next(p, states[n - 1], steps[n - 1], states[n]);
      StepKeepsValid(p, states[n - 1], steps[n - 1]);
    }
  }

  /** Every template ever stored is valid, so publishing one is never refused for its configuration. */
  lemma PublishNeverInvalid(p: Policy, states: seq<Sys>, steps: seq<Step>, n: nat, id: Id, expected: int)
    requires Standard(p) && Behaviour(p, states, steps) && states[0] == START && n <= |steps|
    ensures id in states[n].templates ==> ValidConfig(states[n].templates[id].config)
    ensures Publish(p, states[n], id, expected).1 != Err(Validation)
  {
    StandardIsStorable(p);
    ValidAlong(p, states, steps, n);
  }

  lemma {:induction false} PeakIsAtMostTwenty(p: Policy, states: seq<Sys>, steps: seq<Step>, n: nat, id: Id)
    requires Standard(p) && Behaviour(p, states, steps) && states[0] == START && n <= |steps|
    ensures TT.PeakLimit(states, n, id) <= 20
  {
    if n > 0 { PeakIsAtMostTwenty(p, states, steps, n - 1, id); }
    PublishNeverInvalid(p, states, steps, n, id, 0);
  }

  /** Whatever limits an editor sets, and however often, no template has more than twenty active tasks
      beyond those that were brought back after failing or being cancelled. */
  lemma AtMostTwentyActive(p: Policy, states: seq<Sys>, steps: seq<Step>, n: nat, id: Id)
    requires Standard(p) && Behaviour(p, states, steps) && states[0] == START && n <= |steps|
    ensures |ActiveRuns(states[n], id)| <= 20 + TT.Reactivations(states, n, id)
  {
    TT.ConcurrencyBound(p, states, steps, n, id);
    PeakIsAtMostTwenty(p, states, steps, n, id);
  }
}
