/** The approval store and service as objects whose rows change in place; each method is
    proved to be a step of module Approvals. */
module ApprovalStore {
  import opened Base
  import A = Approvals

  class PostgreSQLStore {
    var requests: A.Requests

    constructor ()
      ensures requests == map[]
    {
      requests := map[];
    }

    method Create(input: A.CreateInput, newId: Id) returns (r: Result<A.Request, A.Error>)
      modifies this
      ensures A.Outcome(requests, r) == A.Insert(old(requests), input, newId)
    {
      if newId == "" || Trim(newId) != newId || newId in requests || input.expiresAt <= input.requestedAt {
        return Err(A.StorageError);
      }
      var info := A.Info(
        input.action, input.risk, Trim(input.actionDigest), input.requesterId, input.eligibleRoles,
        input.requestedAt, input.expiresAt, input.metadata);
      var request := A.Request(info, A.Pending, "", "", "", None, "", "", None, "", "", None, input.requestedAt);
      requests := requests[newId := request];
      return Ok(request);
    }

    /** Marks a pending request whose time has passed. */
    method ExpireIfDue(id: Id, now: Time) returns (expired: bool)
      requires id in requests
      modifies this
      ensures expired == A.IsExpired(old(requests)[id], now)
      ensures requests == if expired then old(requests)[id := A.ExpiredRow(old(requests)[id], now)] else old(requests)
    {
      expired := requests[id].state == A.Pending && requests[id].info.expiresAt <= now;
      if expired {
        requests := requests[id := requests[id].(state := A.Expired, updatedAt := now)];
      }
    }

    method Decide(input: A.DecisionInput) returns (r: Result<A.Request, A.Error>)
      modifies this
      ensures A.Outcome(requests, r) == A.Decide(old(requests), input)
    {
      var id := input.approvalId;
      if id !in requests {
        return Err(A.NotFound);
      }
      var request := requests[id];
      if request.decisionKey == input.key {
        if (request.state == A.Approved && input.decision == A.Approved) || (request.state == A.Rejected && input.decision == A.Rejected) {
          return Ok(request);
        }
        return Err(A.IdempotencyConflict);
      }
      var expired := ExpireIfDue(id, input.now);
      if expired {
        return Err(A.ErrExpired);
      }
      if request.state != A.Pending {
        return Err(A.StateError(request.state));
      }
      request := request.(state := input.decision, decisionKey := input.key, decisionActor := input.actor.id);
      request := request.(decisionReason := input.reason, decidedAt := Some(input.now), updatedAt := input.now);
      requests := requests[id := request];
      return Ok(request);
    }

    method Consume(input: A.ConsumeInput) returns (r: Result<A.Request, A.Error>)
      modifies this
      ensures A.Outcome(requests, r) == A.Consume(old(requests), input)
    {
      var id := input.approvalId;
      if id !in requests {
        return Err(A.NotFound);
      }
      var request := requests[id];
      if request.consumptionKey == input.key {
        if request.info.actionDigest == input.actionDigest && request.state == A.Consumed {
          return Ok(request);
        }
        return Err(A.IdempotencyConflict);
      }
      var expired := ExpireIfDue(id, input.now);
      if expired {
        return Err(A.ErrExpired);
      }
      if request.state != A.Approved {
        return Err(if request.state == A.Pending then A.InvalidState else A.StateError(request.state));
      }
      if request.info.actionDigest != input.actionDigest {
        return Err(A.DigestMismatch);
      }
      request := request.(state := A.Consumed, consumptionKey := input.key, consumedBy := input.actorId);
      request := request.(consumedAt := Some(input.now), updatedAt := input.now);
      requests := requests[id := request];
      return Ok(request);
    }

    method Cancel(input: A.CancelInput) returns (r: Result<A.Request, A.Error>)
      modifies this
      ensures A.Outcome(requests, r) == A.Cancel(old(requests), input)
    {
      var id := input.approvalId;
      if id !in requests {
        return Err(A.NotFound);
      }
      var request := requests[id];
      var expired := ExpireIfDue(id, input.now);
      if expired {
        return Err(A.ErrExpired);
      }
      if request.state != A.Pending && request.state != A.Approved {
        return Err(A.StateError(request.state));
      }
      request := request.(state := A.Cancelled, cancelledBy := input.actor.id, cancelReason := input.reason);
      request := request.(cancelledAt := Some(input.now), updatedAt := input.now);
      requests := requests[id := request];
      return Ok(request);
    }
  }

  // ----- service.go, with nothing in between its check and its transaction -----

  method CreateRequest(store: PostgreSQLStore, input: A.CreateInput, newId: Id, now: Time) returns (r: Result<A.Request, A.Error>)
    modifies store
    ensures A.Outcome(store.requests, r) == A.CreateChecked(old(store.requests), input, newId, now)
    ensures forall calls :: A.Apply(A.Sys(old(store.requests), calls), A.RequestStep(input, newId, now)) == A.Sys(store.requests, calls)
  {
    var refusal := A.ValidateCreate(input, now);
    if refusal.Some? {
      return Err(refusal.value);
    }
    r := store.Create(input, newId);
  }

  method ConsumeRequest(store: PostgreSQLStore, input: A.ConsumeInput) returns (r: Result<A.Request, A.Error>)
    modifies store
    ensures A.Outcome(store.requests, r) == A.ConsumeChecked(old(store.requests), input)
    ensures forall calls :: A.Apply(A.Sys(old(store.requests), calls), A.ConsumeStep(input)) == A.Sys(store.requests, calls)
  {
    var refusal := A.CheckConsume(input);
    if refusal.Some? {
      return Err(refusal.value);
    }
    r := store.Consume(input);
  }

  /** An uninterrupted call is the check step followed at once by its commit step. */
  method DecideRequest(store: PostgreSQLStore, input: A.DecisionInput, call: Id) returns (r: Result<A.Request, A.Error>)
    modifies store
    ensures var s := A.Sys(old(store.requests), map[]);
      store.requests == A.Apply(A.Apply(s, A.CheckDecideStep(call, input)), A.CommitStep(call)).requests
    ensures r == match A.CheckDecision(old(store.requests), input)
      case Some(e) => Err(e)
      case None => A.Decide(old(store.requests), input).result
  {
    var refusal := A.CheckDecision(store.requests, input);
    if refusal.Some? {
      return Err(refusal.value);
    }
    r := store.Decide(input);
  }

  method CancelRequest(store: PostgreSQLStore, input: A.CancelInput, call: Id) returns (r: Result<A.Request, A.Error>)
    modifies store
    ensures var s := A.Sys(old(store.requests), map[]);
      store.requests == A.Apply(A.Apply(s, A.CheckCancelStep(call, input)), A.CommitStep(call)).requests
    ensures r == match A.CheckCancel(old(store.requests), input)
      case Some(e) => Err(e)
      case None => A.Cancel(old(store.requests), input).result
  {
    var refusal := A.CheckCancel(store.requests, input);
    if refusal.Some? {
      return Err(refusal.value);
    }
    r := store.Cancel(input);
  }
}
