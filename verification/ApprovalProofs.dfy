/** What every interleaving of approval calls keeps, and the history behind a consumed request. */
module ApprovalProofs {
  import opened Base
  import opened Approvals

  // ----- one row -----

  /** Fixed columns never change; a stored change is one edge of the state machine; a final row is frozen. */
  predicate RowStep(r: Request, r': Request) {
    && r'.info == r.info
    && (r'.state == r.state ==> r' == r)
    && (r.state != Pending ==> r'.decisionKey == r.decisionKey)
    && (r'.state != r.state ==> CanTransition(r.state, r'.state))
  }

  ghost predicate RequestsStep(requests: Requests, requests': Requests) {
    forall id :: id in requests ==> id in requests' && RowStep(requests[id], requests'[id])
  }

  lemma DecideSteps(requests: Requests, input: DecisionInput)
    requires input.decision == Approved || input.decision == Rejected
    ensures RequestsStep(requests, Decide(requests, input).requests)
    ensures Decide(requests, input).requests.Keys == requests.Keys
  {
  }

  lemma ConsumeSteps(requests: Requests, input: ConsumeInput)
    ensures RequestsStep(requests, Consume(requests, input).requests)
    ensures Consume(requests, input).requests.Keys == requests.Keys
  {
  }

  lemma CancelSteps(requests: Requests, input: CancelInput)
    ensures RequestsStep(requests, Cancel(requests, input).requests)
    ensures Cancel(requests, input).requests.Keys == requests.Keys
  {
  }

  lemma CreateSteps(requests: Requests, input: CreateInput, id: Id, now: Time)
    ensures RequestsStep(requests, CreateChecked(requests, input, id, now).requests)
  {
  }

  // ----- the invariant: identifiers are trimmed, waiting decisions come from eligible actors -----

  predicate GoodCall(requests: Requests, call: Call) {
    call.Deciding? ==>
      && (call.decision.decision == Approved || call.decision.decision == Rejected)
      && ValidKey(call.decision.key)
      && Trim(call.decision.approvalId) in requests
      && CanDecide(call.decision.actor, requests[Trim(call.decision.approvalId)].info)
  }

  ghost predicate Inv(s: Sys) {
    && (forall id :: id in s.requests ==> Trim(id) == id)
    && (forall c :: c in s.calls ==> GoodCall(s.requests, s.calls[c]))
  }

  lemma CallsStayGood(requests: Requests, requests': Requests, call: Call)
    requires GoodCall(requests, call) && RequestsStep(requests, requests')
    ensures GoodCall(requests', call)
  {
    if call.Deciding? {
      var id := Trim(call.decision.approvalId);
      assert RowStep(requests[id], requests'[id]);
    }
  }

  /** Any step that changes requests row by row and only drops calls keeps the invariant. */
  lemma RequestsStepKeepsInv(s: Sys, s': Sys)
    requires Inv(s) && RequestsStep(s.requests, s'.requests)
    requires forall id :: id in s'.requests ==> Trim(id) == id
    requires forall c :: c in s'.calls ==> c in s.calls && s'.calls[c] == s.calls[c]
    ensures Inv(s')
  {
    forall c | c in s'.calls
      ensures GoodCall(s'.requests, s'.calls[c])
    {
      CallsStayGood(s.requests, s'.requests, s.calls[c]);
    }
  }

  lemma CommitSteps(s: Sys, call: Id)
    requires Inv(s) && call in s.calls
    ensures RequestsStep(s.requests, Commit(s.requests, s.calls[call]).requests)
    ensures Commit(s.requests, s.calls[call]).requests.Keys == s.requests.Keys
  {
    assert GoodCall(s.requests, s.calls[call]);
    match s.calls[call]
    case Deciding(decision) => DecideSteps(s.requests, decision);
    case Cancelling(cancel) => CancelSteps(s.requests, cancel);
  }

  lemma StepKeepsInv(s: Sys, step: Step)
    requires Inv(s)
    ensures Inv(Apply(s, step)) && RequestsStep(s.requests, Apply(s, step).requests)
  {
    match step
    case RequestStep(input, newId, now) =>
      CreateSteps(s.requests, input, newId, now);
      RequestsStepKeepsInv(s, Apply(s, step));
    case CommitStep(call) =>
      if call in s.calls {
        CommitSteps(s, call);
        RequestsStepKeepsInv(s, Apply(s, step));
      }
    case ConsumeStep(consume) =>
      ConsumeSteps(s.requests, consume);
      RequestsStepKeepsInv(s, Apply(s, step));
    case CheckDecideStep(call, decision) =>
    case CheckCancelStep(call, cancel) =>
    case IdleStep =>
  }

  lemma {:induction false} InvAlong(states: seq<Sys>, steps: seq<Step>, n: nat)
    requires Behaviour(states, steps) && Inv(states[0]) && n <= |steps|
    ensures Inv(states[n])
  {
    if n > 0 {
      InvAlong(states, steps, n - 1);
      StepKeepsInv(states[n - 1], steps[n - 1]);
    }
  }

  lemma RowStepAt(states: seq<Sys>, steps: seq<Step>, i: nat, id: Id)
    requires Behaviour(states, steps) && Inv(states[0]) && i < |steps| && id in states[i].requests
    ensures id in states[i + 1].requests && RowStep(states[i].requests[id], states[i + 1].requests[id])
  {
    InvAlong(states, steps, i);
    StepKeepsInv(states[i], steps[i]);
  }

  ghost predicate AllMove(states: seq<Sys>) {
    forall i :: 0 <= i < |states| - 1 ==> RequestsStep(states[i].requests, states[i + 1].requests)
  }

  lemma BehaviourMoves(states: seq<Sys>, steps: seq<Step>)
    requires Behaviour(states, steps) && Inv(states[0])
    ensures AllMove(states)
  {
    forall i | 0 <= i < |states| - 1
      ensures RequestsStep(states[i].requests, states[i + 1].requests)
    {
      InvAlong(states, steps, i);
      StepKeepsInv(states[i], steps[i]);
    }
  }

  /** What any number of steps may do to a row: fixed columns survive, a final row is frozen, a decided row
      keeps its decision key, never becomes pending again and never changes its decision. */
  predicate RowLater(r: Request, r': Request) {
    && r'.info == r.info
    && (Final(r.state) ==> r' == r)
    && (r.state != Pending ==> r'.state != Pending && r'.decisionKey == r.decisionKey)
    && (r.state == Approved ==> r' == r || r'.state == Consumed || r'.state == Cancelled)
  }

  lemma {:induction false} RowsMove(states: seq<Sys>, i: nat, j: nat, id: Id)
    requires AllMove(states) && i <= j < |states| && id in states[i].requests
    ensures id in states[j].requests && RowLater(states[i].requests[id], states[j].requests[id])
    decreases j
  {
    if i < j {
      RowsMove(states, i, j - 1, id);
      assert RequestsStep(states[j - 1].requests, states[j - 1 + 1].requests);
      assert RowStep(states[j - 1].requests[id], states[j].requests[id]);
    }
  }

  /** Fixed columns survive, a row in a final state never changes again, and a decided row keeps its
      decision and its key. */
  lemma RowsOverTime(states: seq<Sys>, steps: seq<Step>, i: nat, j: nat, id: Id)
    requires Behaviour(states, steps) && Inv(states[0]) && i <= j <= |steps| && id in states[i].requests
    ensures id in states[j].requests && RowLater(states[i].requests[id], states[j].requests[id])
  {
    BehaviourMoves(states, steps);
    RowsMove(states, i, j, id);
  }

  // ----- requests can be decided, and carry no consumption key before they are consumed -----

  predicate Tidy(r: Request) {
    && (r.state != Consumed ==> r.consumptionKey == "")
    && r.info.eligibleRoles != [] && Privileged(r.info.eligibleRoles[0])
  }

  ghost predicate AllTidy(requests: Requests) {
    forall id :: id in requests ==> Tidy(requests[id])
  }

  lemma CommitTidy(s: Sys, call: Id)
    requires Inv(s) && AllTidy(s.requests) && call in s.calls
    ensures AllTidy(Commit(s.requests, s.calls[call]).requests)
  {
    assert GoodCall(s.requests, s.calls[call]);
  }

  lemma CreateTidy(requests: Requests, input: CreateInput, id: Id, now: Time)
    requires AllTidy(requests)
    ensures AllTidy(CreateChecked(requests, input, id, now).requests)
  {
  }

  lemma ConsumeTidy(requests: Requests, input: ConsumeInput)
    requires AllTidy(requests)
    ensures AllTidy(ConsumeChecked(requests, input).requests)
  {
  }

  lemma {:induction false} TidyAlong(states: seq<Sys>, steps: seq<Step>, n: nat)
    requires Behaviour(states, steps) && states[0] == Sys(map[], map[]) && n <= |steps|
    ensures AllTidy(states[n].requests)
  {
    if n > 0 {
      TidyAlong(states, steps, n - 1);
      var s := states[n - 1];
      assert states[n] == Apply(s, steps[n - 1]);
      match steps[n - 1]
      case RequestStep(input, newId, now) => CreateTidy(s.requests, input, newId, now);
      case ConsumeStep(consume) => ConsumeTidy(s.requests, consume);
      case CommitStep(call) =>
        if call in s.calls {
          InvAlong(states, steps, n - 1);
          CommitTidy(s, call);
        }
      case _ =>
    }
  }

  function Key(c: char): string { seq(8, _ => c) }

  lemma KeysAreValid(c: char)
    requires c == 'a' || c == 'b'
    ensures ValidKey(Key(c))
  {
    var k := Key(c);
    assert k[0] == c && k[7] == c && !IsSpace(c);
    assert TrimLeft(k) == k && TrimRight(k) == k;
  }

  /** A pending request can be approved: some user, some key and some moment before its expiry will do. */
  lemma PendingCanBeApproved(s: Sys, id: Id, call: Id) returns (input: DecisionInput)
    requires Inv(s) && id in s.requests && Tidy(s.requests[id]) && s.requests[id].state == Pending
    ensures var s' := Apply(Apply(s, CheckDecideStep(call, input)), CommitStep(call));
            && s'.requests == s.requests[id := DecidedRow(s.requests[id], input)] && input.decision == Approved
    ensures input.approvalId == id && CheckDecision(s.requests, input).None?
    ensures Decide(s.requests, input) == Outcome(s.requests[id := DecidedRow(s.requests[id], input)], Ok(DecidedRow(s.requests[id], input)))
  {
    var q := s.requests[id];
    var c := if q.decisionKey == Key('a') then 'b' else 'a';
    assert Key('a')[0] != Key('b')[0];
    KeysAreValid(c);
    input := DecisionInput(id, User("", q.info.eligibleRoles[0]), Approved, "", Key(c), q.info.expiresAt - 1);
    assert Trim(id) == id;
    assert CheckDecision(s.requests, input).None?;
    assert Apply(s, CheckDecideStep(call, input)) == s.(calls := s.calls[call := Deciding(input)]);
    assert Decide(s.requests, input).requests == s.requests[id := DecidedRow(q, input)];
  }

  // ----- approval history -----

  /** Step c created request id, with the columns it still has. */
  ghost predicate CreatedBy(states: seq<Sys>, steps: seq<Step>, c: int, id: Id, info: Info) {
    && 0 <= c < |steps| && |states| == |steps| + 1
    && id !in states[c].requests && id in states[c + 1].requests
    && steps[c].RequestStep? && steps[c].newId == id
    && states[c + 1].requests[id] == NewRequest(steps[c].input) && info == NewRequest(steps[c].input).info
  }

  /** Step i approved request id: a privileged actor whose role is among its eligible roles decided it
      strictly before its expiry. */
  ghost predicate ApprovedBy(states: seq<Sys>, steps: seq<Step>, i: int, id: Id) {
    && 0 <= i < |steps| && |states| == |steps| + 1
    && id in states[i].requests && states[i].requests[id].state == Pending
    && id in states[i + 1].requests && states[i + 1].requests[id].state == Approved
    && steps[i].CommitStep? && steps[i].call in states[i].calls && states[i].calls[steps[i].call].Deciding?
    && var decision := states[i].calls[steps[i].call].decision;
       && decision.approvalId == id && decision.decision == Approved
       && (decision.actor.role == Admin || decision.actor.role == Maintainer)
       && decision.actor.role in states[i].requests[id].info.eligibleRoles
       && decision.now < states[i].requests[id].info.expiresAt
       && states[i + 1].requests[id].decidedAt == Some(decision.now)
       && states[i + 1].requests[id].decisionActor == decision.actor.id
  }

  /** Step j consumed request id, with exactly the digest stored in it. */
  ghost predicate ConsumedBy(states: seq<Sys>, steps: seq<Step>, j: int, id: Id) {
    && 0 <= j < |steps| && |states| == |steps| + 1
    && id in states[j].requests && states[j].requests[id].state == Approved
    && id in states[j + 1].requests && states[j + 1].requests[id].state == Consumed
    && steps[j].ConsumeStep? && steps[j].consume.approvalId == id
    && steps[j].consume.actionDigest == states[j].requests[id].info.actionDigest
    && ValidKey(steps[j].consume.key)
    && states[j + 1].requests[id].consumptionKey == steps[j].consume.key
  }

  ghost predicate WasCreated(states: seq<Sys>, steps: seq<Step>, n: int, id: Id, info: Info) {
    exists c :: 0 <= c < n && CreatedBy(states, steps, c, id, info)
  }

  ghost predicate WasApproved(states: seq<Sys>, steps: seq<Step>, n: int, id: Id) {
    exists i :: 0 <= i < n && ApprovedBy(states, steps, i, id)
  }

  lemma EnteringRow(s: Sys, step: Step, id: Id)
    requires id !in s.requests && id in Apply(s, step).requests
    requires Inv(s)
    ensures step.RequestStep? && step.newId == id && Apply(s, step).requests[id] == NewRequest(step.input)
  {
    match step
    case CommitStep(call) => if call in s.calls { CommitSteps(s, call); }
    case ConsumeStep(consume) => ConsumeSteps(s.requests, consume);
    case _ =>
  }

  lemma {:induction false} RowsHaveACreator(states: seq<Sys>, steps: seq<Step>, n: nat, id: Id)
    requires Behaviour(states, steps) && Inv(states[0]) && states[0].requests == map[] && n <= |steps|
    requires id in states[n].requests
    ensures WasCreated(states, steps, n, id, states[n].requests[id].info)
  {
    if n > 0 {
      InvAlong(states, steps, n - 1);
      if id in states[n - 1].requests {
        RowsHaveACreator(states, steps, n - 1, id);
        assert states[n].requests[id].info == states[n - 1].requests[id].info by { RowStepAt(states, steps, n - 1, id); }
      } else {
        EnteringRow(states[n - 1], steps[n - 1], id);
        assert CreatedBy(states, steps, n - 1, id, states[n].requests[id].info);
      }
    }
  }

  lemma EnteringApproved(s: Sys, step: Step, id: Id)
    requires Inv(s) && id in s.requests && s.requests[id].state != Approved && id in Apply(s, step).requests
    requires Apply(s, step).requests[id].state == Approved
    ensures s.requests[id].state == Pending && step.CommitStep? && step.call in s.calls && s.calls[step.call].Deciding?
    ensures var decision := s.calls[step.call].decision;
            && decision.approvalId == id && decision.decision == Approved
            && (decision.actor.role == Admin || decision.actor.role == Maintainer)
            && decision.actor.role in s.requests[id].info.eligibleRoles
            && decision.now < s.requests[id].info.expiresAt
            && Apply(s, step).requests[id] == DecidedRow(s.requests[id], decision)
  {
    match step
    case CommitStep(call) =>
      assert GoodCall(s.requests, s.calls[call]);
      assert Trim(id) == id;
    case _ =>
  }

  lemma {:induction false} ApprovedHasADecision(states: seq<Sys>, steps: seq<Step>, n: nat, id: Id)
    requires Behaviour(states, steps) && Inv(states[0]) && states[0].requests == map[] && n <= |steps|
    requires id in states[n].requests && states[n].requests[id].state == Approved
    ensures WasApproved(states, steps, n, id)
  {
    InvAlong(states, steps, n - 1);
    if id !in states[n - 1].requests {
      EnteringRow(states[n - 1], steps[n - 1], id);
    } else if states[n - 1].requests[id].state == Approved {
      ApprovedHasADecision(states, steps, n - 1, id);
    } else {
      EnteringApproved(states[n - 1], steps[n - 1], id);
      assert ApprovedBy(states, steps, n - 1, id);
    }
  }

  lemma CommitNeverConsumes(s: Sys, call: Id, id: Id)
    requires Inv(s) && call in s.calls && id in s.requests && s.requests[id].state != Consumed
    ensures Commit(s.requests, s.calls[call]).requests[id].state != Consumed
  {
    CommitSteps(s, call);
    assert GoodCall(s.requests, s.calls[call]);
  }

  lemma EnteringConsumed(s: Sys, step: Step, id: Id)
    requires Inv(s) && id in s.requests && s.requests[id].state != Consumed && id in Apply(s, step).requests
    requires Apply(s, step).requests[id].state == Consumed
    ensures s.requests[id].state == Approved && step.ConsumeStep? && step.consume.approvalId == id
    ensures step.consume.actionDigest == s.requests[id].info.actionDigest && ValidKey(step.consume.key)
    ensures Apply(s, step).requests[id] == ConsumedRow(s.requests[id], step.consume)
  {
    if step.CommitStep? && step.call in s.calls { CommitNeverConsumes(s, step.call, id); }
  }

  ghost predicate WasConsumed(states: seq<Sys>, steps: seq<Step>, n: int, id: Id) {
    exists j :: 0 <= j < n && ConsumedBy(states, steps, j, id) && WasApproved(states, steps, j, id)
  }

  lemma {:induction false} ConsumedHasAConsumer(states: seq<Sys>, steps: seq<Step>, n: nat, id: Id)
    requires Behaviour(states, steps) && Inv(states[0]) && states[0].requests == map[] && n <= |steps|
    requires id in states[n].requests && states[n].requests[id].state == Consumed
    ensures WasConsumed(states, steps, n, id)
  {
    assert id in states[n - 1].requests by {
      if id !in states[n - 1].requests { EnteringRow(states[n - 1], steps[n - 1], id); }
    }
    if states[n - 1].requests[id].state == Consumed {
      ConsumedHasAConsumer(states, steps, n - 1, id);
    } else {
      ConsumedNow(states, steps, n - 1, id);
      assert WasApproved(states, steps, n - 1, id) by { ApprovedHasADecision(states, steps, n - 1, id); }
    }
  }

  lemma ConsumedNow(states: seq<Sys>, steps: seq<Step>, k: nat, id: Id)
    requires Behaviour(states, steps) && Inv(states[0]) && k < |steps|
    requires id in states[k].requests && states[k].requests[id].state != Consumed
    requires id in states[k + 1].requests && states[k + 1].requests[id].state == Consumed
    ensures ConsumedBy(states, steps, k, id)
  {
    assert Inv(states[k]) by { InvAlong(states, steps, k); }
    EnteringConsumed(states[k], steps[k], id);
  }

  /** A consumed request carries the action, digest and eligible roles it was created with, was consumed
      with exactly that digest, and was approved earlier, strictly before its expiry, by an admin or
      maintainer in those roles, although the role is checked outside the locking transaction. */
  lemma ApprovalHistory(states: seq<Sys>, steps: seq<Step>, n: nat, id: Id)
    requires Behaviour(states, steps) && states[0] == Sys(map[], map[]) && n <= |steps|
    requires id in states[n].requests && states[n].requests[id].state == Consumed
    ensures WasCreated(states, steps, n, id, states[n].requests[id].info)
    ensures WasConsumed(states, steps, n, id)
  {
    RowsHaveACreator(states, steps, n, id);
    ConsumedHasAConsumer(states, steps, n, id);
  }

  /** Over a request's whole life at most one call consumes it, and at most one approves it. */
  lemma ConsumedAtMostOnce(states: seq<Sys>, steps: seq<Step>, i: nat, j: nat, id: Id)
    requires Behaviour(states, steps) && Inv(states[0])
    ensures ConsumedBy(states, steps, i, id) && ConsumedBy(states, steps, j, id) ==> i == j
    ensures ApprovedBy(states, steps, i, id) && ApprovedBy(states, steps, j, id) ==> i == j
  {
    if i < j {
      NotTwice(states, steps, i, j, id);
    } else if j < i {
      NotTwice(states, steps, j, i, id);
    }
  }

  lemma NotTwice(states: seq<Sys>, steps: seq<Step>, i: nat, j: nat, id: Id)
    requires Behaviour(states, steps) && Inv(states[0]) && i < j
    ensures !(ConsumedBy(states, steps, i, id) && ConsumedBy(states, steps, j, id))
    ensures !(ApprovedBy(states, steps, i, id) && ApprovedBy(states, steps, j, id))
  {
    if j < |steps| && id in states[i + 1].requests && states[i + 1].requests[id].state != Pending {
      RowsOverTime(states, steps, i + 1, j, id);
    }
  }

  // ----- replays -----

  /** A consumption that succeeded at step i can be replayed with the same key and digest at any later
      moment of any behaviour and at any clock reading: it returns the same record and changes nothing.
      The same key with another digest is refused without change, and so is any other key. */
  lemma ConsumeReplay(states: seq<Sys>, steps: seq<Step>, i: nat, j: nat, input: ConsumeInput, replay: ConsumeInput)
    requires Behaviour(states, steps) && Inv(states[0]) && i < j <= |steps| && steps[i] == ConsumeStep(input)
    requires ConsumeChecked(states[i].requests, input).result.Ok?
    requires replay.approvalId == input.approvalId
    ensures var record := ConsumeChecked(states[i].requests, input).result.value;
            var again := Consume(states[j].requests, replay);
            && again.requests == states[j].requests
            && again.result == (if replay.key != input.key then Err(ErrConsumed)
                                else if replay.actionDigest == input.actionDigest then Ok(record)
                                else Err(IdempotencyConflict))
  {
    var id := input.approvalId;
    RowStepAt(states, steps, i, id);
    RowsOverTime(states, steps, i + 1, j, id);
  }

  /** A decision stored at step i can be replayed with its key at any later moment of any behaviour:
      nothing changes, and the answer is the same record exactly while the request is still as that
      decision left it and the replay asks for the same; otherwise, also once an approval has been
      consumed or cancelled, it is a conflict. */
  lemma DecideReplay(states: seq<Sys>, steps: seq<Step>, i: nat, j: nat, input: DecisionInput, replay: DecisionInput)
    requires Behaviour(states, steps) && Inv(states[0]) && i < j <= |steps|
    requires steps[i].CommitStep? && steps[i].call in states[i].calls && states[i].calls[steps[i].call] == Deciding(input)
    requires Decide(states[i].requests, input).result.Ok?
    requires replay.approvalId == input.approvalId && replay.key == input.key
    ensures input.approvalId in states[j].requests
    ensures var record, again := Decide(states[i].requests, input).result.value, Decide(states[j].requests, replay);
            && again.requests == states[j].requests
            && again.result == (if replay.decision == input.decision && states[j].requests[input.approvalId].state == input.decision
                                then Ok(record) else Err(IdempotencyConflict))
  {
    var id := input.approvalId;
    DecidedAt(states, steps, i, input);
    RowsOverTime(states, steps, i + 1, j, id);
  }

  lemma DecidedAt(states: seq<Sys>, steps: seq<Step>, i: nat, input: DecisionInput)
    requires Behaviour(states, steps) && Inv(states[0]) && i < |steps|
    requires steps[i].CommitStep? && steps[i].call in states[i].calls && states[i].calls[steps[i].call] == Deciding(input)
    requires Decide(states[i].requests, input).result.Ok?
    ensures input.decision == Approved || input.decision == Rejected
    ensures input.approvalId in states[i + 1].requests
    ensures states[i + 1].requests[input.approvalId] == Decide(states[i].requests, input).result.value
    ensures Decide(states[i].requests, input).result.value.decisionKey == input.key
    ensures Decide(states[i].requests, input).result.value.state == input.decision
  {
    InvAlong(states, steps, i);
    assert GoodCall(states[i].requests, states[i].calls[steps[i].call]);
  }

  lemma CreatedAlone(input: CreateInput, now: Time)
    requires ValidateCreate(input, now).None? && input.requestedAt < input.expiresAt
    ensures Trim("p") == "p" && Tidy(NewRequest(input)) && ValidDigest(NewRequest(input).info.actionDigest)
    ensures CreateChecked(map[], input, "p", now).requests == map["p" := NewRequest(input)]
  {
    assert "p"[0] == 'p';
    TrimTwice(input.actionDigest);
  }

  lemma ConsumedAlone(r: Request, input: ConsumeInput)
    requires r.state == Approved && r.consumptionKey == "" && ValidDigest(r.info.actionDigest)
    requires input == ConsumeInput("p", "u", r.info.actionDigest, Key('a'), 0)
    ensures ConsumeChecked(map["p" := r], input).requests == map["p" := ConsumedRow(r, input)]
  {
    assert "u"[0] == 'u';
    KeysAreValid('a');
  }

  /** A conflicting replay: a request is created, approved and consumed, and then its approval is sent again. */
  lemma ReplayAfterConsumption(input: CreateInput, now: Time) returns (states: seq<Sys>, steps: seq<Step>, decision: DecisionInput)
    requires ValidateCreate(input, now).None? && input.requestedAt < input.expiresAt
    ensures Behaviour(states, steps) && states[0] == Sys(map[], map[]) && |steps| == 4
    ensures steps[2] == CommitStep("c") && "c" in states[2].calls && states[2].calls["c"] == Deciding(decision)
    ensures Decide(states[2].requests, decision).result.Ok?
    ensures Decide(states[4].requests, decision) == Outcome(states[4].requests, Err(IdempotencyConflict))
  {
    var r1 := NewRequest(input);
    var s0, s1, create := Sys(map[], map[]), Sys(map["p" := r1], map[]), RequestStep(input, "p", now);
    CreatedAlone(input, now);
    var s2, s3;
    decision, s2, s3 := ApprovedAlone(r1);
    var r3 := DecidedRow(r1, decision);
    var consume := ConsumeInput("p", "u", r3.info.actionDigest, Key('a'), 0);
    var s4 := Sys(map["p" := ConsumedRow(r3, consume)], map[]);
    assert Apply(s3, ConsumeStep(consume)) == s4 by { ConsumedAlone(r3, consume); }
    assert Apply(s0, create) == s1;
    FourSteps(s0, s1, s2, s3, s4, create, CheckDecideStep("c", decision), CommitStep("c"), ConsumeStep(consume));
    states, steps := [s0, s1, s2, s3, s4], [create, CheckDecideStep("c", decision), CommitStep("c"), ConsumeStep(consume)];
  }

  lemma ApprovedAlone(r: Request) returns (decision: DecisionInput, s2: Sys, s3: Sys)
    requires Trim("p") == "p" && Tidy(r) && r.state == Pending
    ensures var s1 := Sys(map["p" := r], map[]); s2 == Apply(s1, CheckDecideStep("c", decision)) && s3 == Apply(s2, CommitStep("c"))
    ensures s2 == Sys(map["p" := r], map["c" := Deciding(decision)]) && s3 == Sys(map["p" := DecidedRow(r, decision)], map[])
    ensures decision.approvalId == "p" && decision.decision == Approved && Decide(map["p" := r], decision).result.Ok?
  {
    var s1 := Sys(map["p" := r], map[]);
    decision := PendingCanBeApproved(s1, "p", "c");
    s2 := Apply(s1, CheckDecideStep("c", decision));
    s3 := Apply(s2, CommitStep("c"));
  }

  lemma FourSteps(s0: Sys, s1: Sys, s2: Sys, s3: Sys, s4: Sys, a: Step, b: Step, c: Step, d: Step)
    requires s1 == Apply(s0, a) && s2 == Apply(s1, b) && s3 == Apply(s2, c) && s4 == Apply(s3, d)
    ensures Behaviour([s0, s1, s2, s3, s4], [a, b, c, d])
  {
    var states, steps := [s0, s1, s2, s3, s4], [a, b, c, d];
    forall i | 0 <= i < 4
      ensures states[i + 1] == Apply(states[i], steps[i])
    {
      assert i == 0 || i == 1 || i == 2 || i == 3;
    }
  }
}
