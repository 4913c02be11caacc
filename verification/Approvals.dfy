/** The approval gate: request rows, the store transactions that change them, and
    the service checks around those transactions. Times are arguments; texts are
    the trimmed values that are stored. */
module Approvals {
  import opened Base

  datatype Action = RepairPlan | PublishPatch | SandboxNetwork | OtherAction(name: string)

  datatype Risk = Low | Medium | High | Critical | OtherRisk(name: string)

  datatype State = Pending | Approved | Rejected | Expired | Cancelled | Consumed

  datatype Role = Admin | Maintainer | OtherRole(name: string)

  datatype User = User(id: Id, role: Role)

  datatype Error =
    | InvalidAction | InvalidRisk | InvalidState | InvalidDigest | RequesterRequired | InvalidExpiry | RolesRequired
    | InvalidMetadata | InvalidIdempotency | Forbidden | NotFound | AlreadyDecided | ErrExpired | ErrRejected
    | ErrCancelled | ErrConsumed | DigestMismatch | IdempotencyConflict | StorageError

  /** The network policy members of the metadata; None when they do not decode. */
  datatype Metadata = Metadata(policy: Option<NetworkPolicy>, raw: string)

  datatype NetworkPolicy = NetworkPolicy(destinations: seq<string>, name: string)

  /** The columns no statement updates. */
  datatype Info = Info(
    action: Action, risk: Risk, actionDigest: string, requesterId: Id, eligibleRoles: seq<Role>,
    requestedAt: Time, expiresAt: Time, metadata: Metadata)

  datatype Request = Request(
    info: Info, state: State, decisionKey: string, decisionActor: Id, decisionReason: string, decidedAt: Option<Time>,
    consumptionKey: string, consumedBy: Id, consumedAt: Option<Time>,
    cancelledBy: Id, cancelReason: string, cancelledAt: Option<Time>, updatedAt: Time)

  type Requests = map<Id, Request>

  datatype Outcome = Outcome(requests: Requests, result: Result<Request, Error>)

  datatype CreateInput = CreateInput(
    action: Action, risk: Risk, actionDigest: string, requesterId: Id, eligibleRoles: seq<Role>,
    expiresAt: Time, metadata: Metadata, requestedAt: Time)

  datatype DecisionInput = DecisionInput(approvalId: Id, actor: User, decision: State, reason: string, key: string, now: Time)

  datatype ConsumeInput = ConsumeInput(approvalId: Id, actorId: Id, actionDigest: string, key: string, now: Time)

  datatype CancelInput = CancelInput(approvalId: Id, actor: User, reason: string, now: Time)

  // ----- types.go -----

  predicate CanTransition(from: State, to: State) {
    match from
    case Pending => to == Approved || to == Rejected || to == Expired || to == Cancelled
    case Approved => to == Consumed || to == Cancelled
    case _ => false
  }

  predicate Final(state: State) { state != Pending && state != Approved }

  predicate ValidDigest(value: string) { IsHex(Trim(value), 64) }

  predicate ValidKey(key: string) {
    var value := Trim(key);
    8 <= |value| <= 200 && !ContainsAny(value, "\r\n")
  }

  predicate ValidNetworkMetadata(metadata: Metadata) {
    && metadata.policy.Some?
    && 0 < |metadata.policy.value.destinations| <= 50
    && !Blank(metadata.policy.value.name)
    && forall i :: 0 <= i < |metadata.policy.value.destinations| ==> ValidDestination(Trim(metadata.policy.value.destinations[i]))
  }

  predicate ValidDestination(destination: string) {
    destination != "" && !ContainsAny(destination, "\r\n*?") && |destination| <= 253
  }

  predicate Privileged(role: Role) { role == Admin || role == Maintainer }

  /** ValidateCreate, first failure first. */
  function ValidateCreate(input: CreateInput, now: Time): Option<Error> {
    if input.action.OtherAction? then Some(InvalidAction)
    else if input.risk.OtherRisk? then Some(InvalidRisk)
    else if !ValidDigest(input.actionDigest) then Some(InvalidDigest)
    else if Blank(input.requesterId) then Some(RequesterRequired)
    else if input.expiresAt <= now then Some(InvalidExpiry)
    else if input.eligibleRoles == [] then Some(RolesRequired)
    else if exists i :: 0 <= i < |input.eligibleRoles| && !Privileged(input.eligibleRoles[i]) then Some(Forbidden)
    else if input.action == SandboxNetwork && !ValidNetworkMetadata(input.metadata) then Some(InvalidMetadata)
    else None
  }

  /** Only pending requests expire. */
  predicate IsExpired(r: Request, now: Time) { r.state == Pending && r.info.expiresAt <= now }

  // ----- store.go -----

  function StateError(state: State): Error {
    match state
    case Expired => ErrExpired
    case Rejected => ErrRejected
    case Cancelled => ErrCancelled
    case Consumed => ErrConsumed
    case _ => AlreadyDecided
  }

  function NewRequest(input: CreateInput): Request {
    Request(Info(input.action, input.risk, Trim(input.actionDigest), input.requesterId, input.eligibleRoles,
                 input.requestedAt, input.expiresAt, input.metadata),
            Pending, "", "", "", None, "", "", None, "", "", None, input.requestedAt)
  }

  /** INSERT: refused when the identifier is not fresh or the row's own checks fail. */
  function Insert(requests: Requests, input: CreateInput, id: Id): Outcome {
    if id == "" || Trim(id) != id || id in requests || input.expiresAt <= input.requestedAt
    then Outcome(requests, Err(StorageError))
    else Outcome(requests[id := NewRequest(input)], Ok(NewRequest(input)))
  }

  function ExpiredRow(r: Request, now: Time): Request { r.(state := Expired, updatedAt := now) }

  function DecidedRow(r: Request, input: DecisionInput): Request {
    r.(state := input.decision, decisionKey := input.key, decisionActor := input.actor.id,
       decisionReason := input.reason, decidedAt := Some(input.now), updatedAt := input.now)
  }

  function ConsumedRow(r: Request, input: ConsumeInput): Request {
    r.(state := Consumed, consumptionKey := input.key, consumedBy := input.actorId,
       consumedAt := Some(input.now), updatedAt := input.now)
  }

  function CancelledRow(r: Request, input: CancelInput): Request {
    r.(state := Cancelled, cancelledBy := input.actor.id, cancelReason := input.reason,
       cancelledAt := Some(input.now), updatedAt := input.now)
  }

  function Decide(requests: Requests, input: DecisionInput): Outcome {
    if input.approvalId !in requests then Outcome(requests, Err(NotFound))
    else
      var r := requests[input.approvalId];
      if r.decisionKey == input.key then
        if r.state == input.decision && (r.state == Approved || r.state == Rejected) then Outcome(requests, Ok(r))
        else Outcome(requests, Err(IdempotencyConflict))
      else if IsExpired(r, input.now) then
        Outcome(requests[input.approvalId := ExpiredRow(r, input.now)], Err(ErrExpired))
      else if r.state != Pending then Outcome(requests, Err(StateError(r.state)))
      else Outcome(requests[input.approvalId := DecidedRow(r, input)], Ok(DecidedRow(r, input)))
  }

  function Consume(requests: Requests, input: ConsumeInput): Outcome {
    if input.approvalId !in requests then Outcome(requests, Err(NotFound))
    else
      var r := requests[input.approvalId];
      if r.consumptionKey == input.key then
        if r.info.actionDigest == input.actionDigest && r.state == Consumed then Outcome(requests, Ok(r))
        else Outcome(requests, Err(IdempotencyConflict))
      else if IsExpired(r, input.now) then
        Outcome(requests[input.approvalId := ExpiredRow(r, input.now)], Err(ErrExpired))
      else if r.state != Approved then
        Outcome(requests, Err(if r.state == Pending then InvalidState else StateError(r.state)))
      else if r.info.actionDigest != input.actionDigest then Outcome(requests, Err(DigestMismatch))
      else Outcome(requests[input.approvalId := ConsumedRow(r, input)], Ok(ConsumedRow(r, input)))
  }

  function Cancel(requests: Requests, input: CancelInput): Outcome {
    if input.approvalId !in requests then Outcome(requests, Err(NotFound))
    else
      var r := requests[input.approvalId];
      if IsExpired(r, input.now) then
        Outcome(requests[input.approvalId := ExpiredRow(r, input.now)], Err(ErrExpired))
      else if r.state != Pending && r.state != Approved then Outcome(requests, Err(StateError(r.state)))
      else Outcome(requests[input.approvalId := CancelledRow(r, input)], Ok(CancelledRow(r, input)))
  }

  // ----- service.go: checks made outside the locking transaction -----

  predicate CanDecide(actor: User, info: Info) {
    Privileged(actor.role) && actor.role in info.eligibleRoles
  }

  /** Service.Decide up to its call of the store: None when the call goes ahead. */
  function CheckDecision(requests: Requests, input: DecisionInput): Option<Error> {
    if input.decision != Approved && input.decision != Rejected then Some(InvalidState)
    else if !ValidKey(input.key) then Some(InvalidIdempotency)
    else if Trim(input.approvalId) !in requests then Some(NotFound)
    else if !CanDecide(input.actor, requests[Trim(input.approvalId)].info) then Some(Forbidden)
    else None
  }

  function CheckConsume(input: ConsumeInput): Option<Error> {
    if Blank(input.actorId) then Some(Forbidden)
    else if !ValidDigest(input.actionDigest) then Some(InvalidDigest)
    else if !ValidKey(input.key) then Some(InvalidIdempotency)
    else None
  }

  function CheckCancel(requests: Requests, input: CancelInput): Option<Error> {
    if Blank(input.actor.id) then Some(Forbidden)
    else if Trim(input.approvalId) !in requests then Some(NotFound)
    else if input.actor.id != requests[Trim(input.approvalId)].info.requesterId && !Privileged(input.actor.role) then Some(Forbidden)
    else None
  }

  /** Service.Create: validation, then the insert. */
  function CreateChecked(requests: Requests, input: CreateInput, id: Id, now: Time): Outcome {
    match ValidateCreate(input, now)
    case Some(e) => Outcome(requests, Err(e))
    case None => Insert(requests, input, id)
  }

  /** Service.Consume: its checks read no row, so the whole call is one step. */
  function ConsumeChecked(requests: Requests, input: ConsumeInput): Outcome {
    match CheckConsume(input)
    case Some(e) => Outcome(requests, Err(e))
    case None => Consume(requests, input)
  }

  // ----- interleavings -----

  /** A service call between its unlocked check and its locked transaction. */
  datatype Call = Deciding(decision: DecisionInput) | Cancelling(cancel: CancelInput)

  datatype Sys = Sys(requests: Requests, calls: map<Id, Call>)

  datatype Step =
    | RequestStep(input: CreateInput, newId: Id, now: Time)
    | CheckDecideStep(call: Id, decision: DecisionInput)
    | CheckCancelStep(call: Id, cancel: CancelInput)
    | CommitStep(call: Id)
    | ConsumeStep(consume: ConsumeInput)
    | IdleStep

  function Commit(requests: Requests, call: Call): Outcome {
    match call
    case Deciding(decision) => Decide(requests, decision)
    case Cancelling(cancel) => Cancel(requests, cancel)
  }

  function Apply(s: Sys, step: Step): Sys {
    match step
    case RequestStep(input, newId, now) => s.(requests := CreateChecked(s.requests, input, newId, now).requests)
    case CheckDecideStep(call, decision) =>
      if CheckDecision(s.requests, decision).None? then s.(calls := s.calls[call := Deciding(decision)]) else s
    case CheckCancelStep(call, cancel) =>
      if CheckCancel(s.requests, cancel).None? then s.(calls := s.calls[call := Cancelling(cancel)]) else s
    case CommitStep(call) =>
      if call in s.calls then Sys(Commit(s.requests, s.calls[call]).requests, s.calls - {call}) else s
    case ConsumeStep(consume) => s.(requests := ConsumeChecked(s.requests, consume).requests)
    case IdleStep => s
  }

  /** Any interleaving of service calls: states[i] is the system before steps[i]. */
  ghost predicate Behaviour(states: seq<Sys>, steps: seq<Step>) {
    && |states| == |steps| + 1
    && forall i :: 0 <= i < |steps| ==> states[i + 1] == Apply(states[i], steps[i])
  }
}
