/** Who may do what at the approval gate, and in what form, read off the columns and the characters of the
    request: the exact refusals of every service call. */
module ApprovalRules {
  import opened Base
  import opened Approvals

  ghost predicate NoLineBreak(s: string) {
    forall i :: 0 <= i < |s| ==> s[i] as int != 10 && s[i] as int != 13
  }

  /** 8 to 200 characters without a line break, once trimmed. */
  ghost predicate GoodKey(key: string) {
    8 <= |Trim(key)| <= 200 && NoLineBreak(Trim(key))
  }

  /** 64 hexadecimal digits, once trimmed. */
  ghost predicate GoodDigest(digest: string) {
    |Trim(digest)| == 64 && forall i :: 0 <= i < 64 ==> Trim(digest)[i] in "0123456789abcdefABCDEF"
  }

  lemma KeyRule(key: string)
    ensures ValidKey(key) <==> GoodKey(key)
  {
    var k := Trim(key);
    assert "\r\n"[0] == '\r' && "\r\n"[1] == '\n';
    assert forall c :: c in "\r\n" <==> c == '\r' || c == '\n';
  }

  lemma DigestRule(digest: string)
    ensures ValidDigest(digest) <==> GoodDigest(digest)
  {
    forall c: char
      ensures IsHexDigit(c) <==> c in "0123456789abcdefABCDEF"
    {
      HexDigits(c);
    }
  }

  // ----- decide -----

  /** A decision is forbidden exactly to users who are neither admin nor maintainer or whose role is not among
      the roles stored in the request; and what else refuses it first. */
  lemma DecisionRefusedExactly(requests: Requests, input: DecisionInput)
    ensures var refusal := CheckDecision(requests, input);
            && (refusal == Some(InvalidState) <==> input.decision != Approved && input.decision != Rejected)
            && (input.decision == Approved || input.decision == Rejected ==>
                 && (refusal == Some(InvalidIdempotency) <==> !GoodKey(input.key))
                 && (GoodKey(input.key) ==>
                      && (refusal == Some(NotFound) <==> Trim(input.approvalId) !in requests)
                      && (Trim(input.approvalId) in requests ==>
                           && (refusal == Some(Forbidden) <==> !Eligible(input.actor.role, requests[Trim(input.approvalId)].info))
                           && (refusal == None <==> Eligible(input.actor.role, requests[Trim(input.approvalId)].info)))))
  {
    KeyRule(input.key);
  }

  /** An admin or a maintainer, and one of the roles the request was created for. */
  predicate Eligible(role: Role, info: Info) {
    (role == Admin || role == Maintainer) && exists i :: 0 <= i < |info.eligibleRoles| && info.eligibleRoles[i] == role
  }

  // ----- consume -----

  /** What refuses a consumption before the request is read. */
  lemma ConsumptionRefusedExactly(requests: Requests, input: ConsumeInput)
    ensures CheckConsume(input) == (if AllWhite(input.actorId) then Some(Forbidden)
                                    else if !GoodDigest(input.actionDigest) then Some(InvalidDigest)
                                    else if !GoodKey(input.key) then Some(InvalidIdempotency)
                                    else None)
    ensures CheckConsume(input).Some? ==> ConsumeChecked(requests, input) == Outcome(requests, Err(CheckConsume(input).value))
  {
    KeyRule(input.key);
    DigestRule(input.actionDigest);
    assert Blank(input.actorId) <==> AllWhite(input.actorId);
  }

  /** A consumption changes a request exactly when it is approved, the digest is the stored one and the key is
      not that of an earlier consumption; or when it finds it pending past its expiry. */
  lemma ConsumptionExactly(requests: Requests, input: ConsumeInput)
    requires input.approvalId in requests && requests[input.approvalId].consumptionKey != input.key
    ensures var q, o := requests[input.approvalId], Consume(requests, input);
            && (o.result.Ok? <==> q.state == Approved && q.info.actionDigest == input.actionDigest)
            && (o.result.Ok? ==> o.requests == requests[input.approvalId := q.(state := Consumed, consumptionKey := input.key,
                                                        consumedBy := input.actorId, consumedAt := Some(input.now), updatedAt := input.now)])
            && (q.state == Pending && q.info.expiresAt <= input.now ==>
                 o == Outcome(requests[input.approvalId := q.(state := Expired, updatedAt := input.now)], Err(ErrExpired)))
            && (q.state == Pending && q.info.expiresAt > input.now ==> o == Outcome(requests, Err(InvalidState)))
            && (q.state == Approved && q.info.actionDigest != input.actionDigest ==> o == Outcome(requests, Err(DigestMismatch)))
            && (q.state == Rejected ==> o == Outcome(requests, Err(ErrRejected)))
            && (q.state == Expired ==> o == Outcome(requests, Err(ErrExpired)))
            && (q.state == Cancelled ==> o == Outcome(requests, Err(ErrCancelled)))
            && (q.state == Consumed ==> o == Outcome(requests, Err(ErrConsumed)))
  {
  }

  // ----- cancel -----

  /** A cancellation is open exactly to the requester and to admins and maintainers. */
  lemma CancellationRefusedExactly(requests: Requests, input: CancelInput)
    ensures CheckCancel(requests, input) ==
      (if AllWhite(input.actor.id) then Some(Forbidden)
       else if Trim(input.approvalId) !in requests then Some(NotFound)
       else if input.actor.id == requests[Trim(input.approvalId)].info.requesterId || input.actor.role == Admin || input.actor.role == Maintainer then None
       else Some(Forbidden))
  {
    assert Blank(input.actor.id) <==> AllWhite(input.actor.id);
  }

  /** It takes effect exactly on approved requests and on pending ones that have not expired. */
  lemma CancellationExactly(requests: Requests, input: CancelInput)
    requires input.approvalId in requests
    ensures var q, o := requests[input.approvalId], Cancel(requests, input);
            && (o.result.Ok? <==> q.state == Approved || (q.state == Pending && input.now < q.info.expiresAt))
            && (o.result.Ok? ==> o.requests == requests[input.approvalId := q.(state := Cancelled, cancelledBy := input.actor.id,
                                                        cancelReason := input.reason, cancelledAt := Some(input.now), updatedAt := input.now)])
  {
  }

  // ----- create -----

  /** One to fifty destinations, each trimmed form 1 to 253 characters without line break or wildcard, and a
      named policy. */
  ghost predicate GoodNetwork(m: Metadata) {
    && m.policy.Some? && 1 <= |m.policy.value.destinations| <= 50 && !AllWhite(m.policy.value.name)
    && forall i :: 0 <= i < |m.policy.value.destinations| ==> GoodDestination(Trim(m.policy.value.destinations[i]))
  }

  ghost predicate GoodDestination(d: string) {
    1 <= |d| <= 253 && NoLineBreak(d) && forall i :: 0 <= i < |d| ==> d[i] != '*' && d[i] != '?'
  }

  lemma DestinationRule(d: string)
    ensures ValidDestination(d) <==> GoodDestination(d)
  {
    var w := "\r\n*?";
    assert w[0] == '\r' && w[1] == '\n' && w[2] == '*' && w[3] == '?';
    assert forall c :: c in w <==> c == '\r' || c == '\n' || c == '*' || c == '?';
  }

  lemma NetworkRule(m: Metadata)
    ensures ValidNetworkMetadata(m) <==> GoodNetwork(m)
  {
    if m.policy.Some? {
      assert Blank(m.policy.value.name) <==> AllWhite(m.policy.value.name);
      forall i | 0 <= i < |m.policy.value.destinations|
        ensures ValidDestination(Trim(m.policy.value.destinations[i])) <==> GoodDestination(Trim(m.policy.value.destinations[i]))
      {
        DestinationRule(Trim(m.policy.value.destinations[i]));
      }
    }
  }

  ghost predicate AllPrivileged(roles: seq<Role>) {
    forall i :: 0 <= i < |roles| ==> roles[i] == Admin || roles[i] == Maintainer
  }

  /** The first reason against a request, given whether its digest and its network policy are in order. */
  ghost function FirstReason(input: CreateInput, now: Time, digest: bool, network: bool): Option<Error> {
    if input.action != RepairPlan && input.action != PublishPatch && input.action != SandboxNetwork then Some(InvalidAction)
    else if input.risk != Low && input.risk != Medium && input.risk != High && input.risk != Critical then Some(InvalidRisk)
    else if !digest then Some(InvalidDigest)
    else if AllWhite(input.requesterId) then Some(RequesterRequired)
    else if input.expiresAt <= now then Some(InvalidExpiry)
    else if |input.eligibleRoles| == 0 then Some(RolesRequired)
    else if !AllPrivileged(input.eligibleRoles) then Some(Forbidden)
    else if input.action == SandboxNetwork && !network then Some(InvalidMetadata)
    else None
  }

  lemma ReasonsInOrder(input: CreateInput, now: Time)
    ensures ValidateCreate(input, now) == FirstReason(input, now, ValidDigest(input.actionDigest), ValidNetworkMetadata(input.metadata))
  {
    assert Blank(input.requesterId) <==> AllWhite(input.requesterId);
    if exists i :: 0 <= i < |input.eligibleRoles| && !Privileged(input.eligibleRoles[i]) {
      assert !AllPrivileged(input.eligibleRoles);
    } else {
      assert AllPrivileged(input.eligibleRoles);
    }
  }

  /** Which requests can be created, and the first reason against any other. */
  lemma CreationRefusedExactly(input: CreateInput, now: Time)
    ensures ValidateCreate(input, now) == FirstReason(input, now, GoodDigest(input.actionDigest), GoodNetwork(input.metadata))
  {
    ReasonsInOrder(input, now);
    assert ValidDigest(input.actionDigest) == GoodDigest(input.actionDigest) by { DigestRule(input.actionDigest); }
    assert ValidNetworkMetadata(input.metadata) == GoodNetwork(input.metadata) by { NetworkRule(input.metadata); }
  }

  /** The state machine read by target. */
  lemma EdgesByTarget(from: State)
    ensures !CanTransition(from, Pending)
    ensures CanTransition(from, Approved) <==> from == Pending
    ensures CanTransition(from, Rejected) <==> from == Pending
    ensures CanTransition(from, Expired) <==> from == Pending
    ensures CanTransition(from, Cancelled) <==> from == Pending || from == Approved
    ensures CanTransition(from, Consumed) <==> from == Approved
  {
  }

  /** A decision with a new key takes effect exactly on a pending request that has not expired. */
  lemma DecisionExactly(requests: Requests, input: DecisionInput)
    requires input.approvalId in requests && requests[input.approvalId].decisionKey != input.key
    ensures var q, o := requests[input.approvalId], Decide(requests, input);
            && (o.result.Ok? <==> q.state == Pending && input.now < q.info.expiresAt)
            && (o.result.Ok? ==> o.requests == requests[input.approvalId := q.(state := input.decision, decisionKey := input.key,
                                   decisionActor := input.actor.id, decisionReason := input.reason, decidedAt := Some(input.now), updatedAt := input.now)])
            && (q.state == Pending && q.info.expiresAt <= input.now ==>
                 o == Outcome(requests[input.approvalId := q.(state := Expired, updatedAt := input.now)], Err(ErrExpired)))
            && (q.state == Approved ==> o == Outcome(requests, Err(AlreadyDecided)))
            && (q.state == Rejected ==> o == Outcome(requests, Err(ErrRejected)))
            && (q.state == Expired ==> o == Outcome(requests, Err(ErrExpired)))
            && (q.state == Cancelled ==> o == Outcome(requests, Err(ErrCancelled)))
            && (q.state == Consumed ==> o == Outcome(requests, Err(ErrConsumed)))
  {
  }
}
