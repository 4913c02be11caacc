/** The fixed-window rate limiter (ratelimit/limiter.go). The mutex makes each call
  * one atomic step; times are nanoseconds read from one clock. */
module RateLimit {
  import opened Base

  const SECOND: int := 1_000_000_000
  const WINDOW: int := 60 * SECOND

  /** A client's current window: when it began and the requests admitted in it. */
  datatype Window = Window(started: Time, count: nat)

  type Clients = map<Id, Window>

  datatype Decision = Admit | Reject(seconds: int)

  datatype Outcome = Outcome(clients: Clients, decision: Decision)

  /** The client's window if it is still running at `now`. */
  function LiveAt(clients: Clients, client: Id, now: Time): Option<Window> {
    if client in clients && now - clients[client].started < WINDOW then Some(clients[client]) else None
  }

  function Allow(clients: Clients, limit: nat, client: Id, now: Time): Outcome {
    match LiveAt(clients, client, now)
    case None => Outcome(clients[client := Window(now, 1)], Admit)
    case Some(w) =>
      if w.count >= limit then
        Outcome(clients, Reject((WINDOW - (now - w.started) + SECOND - 1) / SECOND))
      else
        Outcome(clients[client := w.(count := w.count + 1)], Admit)
  }

  function Swept(clients: Clients, now: Time): Clients {
    map k | k in clients && now - clients[k].started < WINDOW :: clients[k]
  }

  // ---- The limiter object ---------------------------------------------------------

  class Limiter {
    const limit: nat
    var clients: Clients

    constructor (perMinute: int)
      ensures clients == map[]
      ensures limit == if perMinute <= 0 then 120 else perMinute
    {
      limit := if perMinute <= 0 then 120 else perMinute;
      clients := map[];
    }

    method Request(client: Id, now: Time) returns (allowed: bool, retryAfter: int)
      modifies this
      ensures var o := Allow(old(clients), limit, client, now);
        && clients == o.clients
        && allowed == o.decision.Admit?
        && retryAfter == if allowed then 0 else o.decision.seconds
    {
      if client !in clients || now - clients[client].started >= WINDOW {
        clients := clients[client := Window(now, 1)];
        return true, 0;
      }
      var item := clients[client];
      if item.count >= limit {
        var remaining := WINDOW - (now - item.started);
        return false, (remaining + SECOND - 1) / SECOND;
      }
      clients := clients[client := item.(count := item.count + 1)];
      return true, 0;
    }

    method Sweep(now: Time)
      modifies this
      ensures clients == Swept(old(clients), now)
    {
      var todo := clients.Keys;
      while todo != {}
        invariant todo <= old(clients).Keys
        invariant clients.Keys <= old(clients).Keys
        invariant forall k :: k in clients ==> clients[k] == old(clients)[k]
        invariant forall k :: k in old(clients) ==> (k in clients <==> k in todo || now - old(clients)[k].started < WINDOW)
        decreases todo
      {
        var k :| k in todo;
        if now - clients[k].started >= WINDOW {
          clients := clients - {k};
        }
        todo := todo - {k};
      }
    }
  }

  // ---- Runs ---------------------------------------------------------------------------

  datatype Call = Request(client: Id, now: Time) | Sweep(now: Time)

  function After(clients: Clients, limit: nat, c: Call): Clients {
    match c
    case Request(client, now) => Allow(clients, limit, client, now).clients
    case Sweep(now) => Swept(clients, now)
  }

  function AfterAll(clients: Clients, limit: nat, calls: seq<Call>): Clients
    decreases |calls|
  {
    if calls == [] then clients else AfterAll(After(clients, limit, calls[0]), limit, calls[1..])
  }

  /** The decisions on the requests of a run, in order. */
  function Decisions(clients: Clients, limit: nat, calls: seq<Call>): seq<Decision>
    decreases |calls|
  {
    if calls == [] then []
    else
      (match calls[0]
       case Request(client, now) => [Allow(clients, limit, client, now).decision]
       case Sweep(_) => [])
      + Decisions(After(clients, limit, calls[0]), limit, calls[1..])
  }

  /** No call lies before `since` or before an earlier call. */
  predicate Ordered(calls: seq<Call>, since: Time) {
    calls == [] || (since <= calls[0].now && Ordered(calls[1..], calls[0].now))
  }

  // ---- Sweeping changes no decision -------------------------------------------------------

  function Requests(calls: seq<Call>): seq<Call> {
    if calls == [] then []
    else (if calls[0].Request? then [calls[0]] else []) + Requests(calls[1..])
  }

  /** The same windows are running at `now` and later. */
  ghost predicate Alike(a: Clients, b: Clients, now: Time) {
    Swept(a, now) == Swept(b, now)
  }

  lemma AlikeAt(a: Clients, b: Clients, now: Time, client: Id)
    requires Alike(a, b, now)
    ensures LiveAt(a, client, now) == LiveAt(b, client, now)
  {
    assert client in Swept(a, now) <==> LiveAt(a, client, now).Some?;
    assert client in Swept(b, now) <==> LiveAt(b, client, now).Some?;
    if client in Swept(a, now) {
      assert Swept(a, now)[client] == Swept(b, now)[client];
    }
  }

  lemma AlikeFrom(a: Clients, b: Clients, now: Time)
    requires forall k :: LiveAt(a, k, now) == LiveAt(b, k, now)
    ensures Alike(a, b, now)
  {
    forall k ensures k in Swept(a, now) <==> k in Swept(b, now) {
      assert LiveAt(a, k, now) == LiveAt(b, k, now);
    }
    forall k | k in Swept(a, now) ensures Swept(a, now)[k] == Swept(b, now)[k] {
      assert LiveAt(a, k, now) == LiveAt(b, k, now);
    }
  }

  lemma AlikeLater(a: Clients, b: Clients, now: Time, later: Time)
    requires Alike(a, b, now) && now <= later
    ensures Alike(a, b, later)
  {
    forall k ensures LiveAt(a, k, later) == LiveAt(b, k, later) {
      AlikeAt(a, b, now, k);
    }
    AlikeFrom(a, b, later);
  }

  lemma AlikeAfterSweep(a: Clients, now: Time)
    ensures Alike(Swept(a, now), a, now)
  {
  }

  lemma AlikeAfterAllow(a: Clients, b: Clients, limit: nat, client: Id, now: Time)
    requires Alike(a, b, now)
    ensures Allow(a, limit, client, now).decision == Allow(b, limit, client, now).decision
    ensures Alike(Allow(a, limit, client, now).clients, Allow(b, limit, client, now).clients, now)
  {
    AlikeAt(a, b, now, client);
    var a', b' := Allow(a, limit, client, now).clients, Allow(b, limit, client, now).clients;
    forall k ensures LiveAt(a', k, now) == LiveAt(b', k, now) {
      AlikeAt(a, b, now, k);
    }
    AlikeFrom(a', b', now);
  }

  lemma {:induction false} SweepsDropOut(a: Clients, b: Clients, limit: nat, calls: seq<Call>, since: Time)
    requires Alike(a, b, since) && Ordered(calls, since)
    ensures Decisions(a, limit, calls) == Decisions(b, limit, Requests(calls))
    decreases |calls|
  {
    if calls != [] {
      var now, rest := calls[0].now, calls[1..];
      AlikeLater(a, b, since, now);
      match calls[0] {
        case Request(client, _) =>
          AlikeAfterAllow(a, b, limit, client, now);
          SweepsDropOut(After(a, limit, calls[0]), After(b, limit, calls[0]), limit, rest, now);
          assert Requests(calls)[1..] == Requests(rest);
        case Sweep(_) =>
          AlikeAfterSweep(a, now);
          SweepsDropOut(Swept(a, now), b, limit, rest, now);
          assert Requests(calls) == Requests(rest);
      }
    }
  }

  /** Two runs with the same requests, with sweeps anywhere in either, decide alike. */
  lemma SweepsChangeNoDecision(limit: nat, xs: seq<Call>, ys: seq<Call>, since: Time)
    requires Ordered(xs, since) && Ordered(ys, since) && Requests(xs) == Requests(ys)
    ensures Decisions(map[], limit, xs) == Decisions(map[], limit, ys)
  {
    SweepsDropOut(map[], map[], limit, xs, since);
    SweepsDropOut(map[], map[], limit, ys, since);
  }

  // ---- How much a window length can admit --------------------------------------------------

  /** One minute in nanoseconds, the promise of the limiter's name for its limit. */
  const MINUTE: int := 60_000_000_000

  /** The requests of `client` admitted at times in [from, from + MINUTE). */
  function Admitted(clients: Clients, limit: nat, calls: seq<Call>, client: Id, from: Time): nat
    decreases |calls|
  {
    if calls == [] then 0
    else Counted(clients, limit, calls[0], client, from)
         + Admitted(After(clients, limit, calls[0]), limit, calls[1..], client, from)
  }

  function Counted(clients: Clients, limit: nat, c: Call, client: Id, from: Time): nat {
    if c.Request? && c.client == client && from <= c.now < from + MINUTE
       && Allow(clients, limit, client, c.now).decision.Admit?
    then 1 else 0
  }

  function Room(w: Window, limit: nat): nat {
    if w.count < limit then limit - w.count else 0
  }

  /** How many more requests the interval can still admit after time `now`. */
  function Allowance(clients: Clients, limit: nat, client: Id, from: Time, now: Time): nat
    requires limit > 0
  {
    if now < from then 2 * limit - 1
    else if now >= from + WINDOW then 0
    else match LiveAt(clients, client, now)
      case None => limit
      case Some(w) => Room(w, limit) + if w.started < from then limit else 0
  }

  predicate Counting(clients: Clients) {
    forall k :: k in clients ==> clients[k].count > 0
  }

  lemma AllowanceShrinks(clients: Clients, limit: nat, client: Id, from: Time, now: Time, later: Time)
    requires limit > 0 && now <= later && Counting(clients)
    ensures Allowance(clients, limit, client, from, later) <= Allowance(clients, limit, client, from, now)
  {
  }

  lemma CallSpends(clients: Clients, limit: nat, c: Call, client: Id, from: Time)
    requires limit > 0 && Counting(clients)
    ensures Counting(After(clients, limit, c))
    ensures Counted(clients, limit, c, client, from) + Allowance(After(clients, limit, c), limit, client, from, c.now)
      <= Allowance(clients, limit, client, from, c.now)
  {
  }

  lemma {:induction false} AdmittedWithinAllowance(clients: Clients, limit: nat, calls: seq<Call>, client: Id, from: Time, since: Time)
    requires limit > 0 && Counting(clients) && Ordered(calls, since)
    ensures Admitted(clients, limit, calls, client, from) <= Allowance(clients, limit, client, from, since)
    decreases |calls|
  {
    if calls != [] {
      AllowanceShrinks(clients, limit, client, from, since, calls[0].now);
      CallSpends(clients, limit, calls[0], client, from);
      AdmittedWithinAllowance(After(clients, limit, calls[0]), limit, calls[1..], client, from, calls[0].now);
    }
  }

  /** Any half-open interval of one window length admits fewer than twice the limit. */
  lemma AdmittedBelowTwiceTheLimit(limit: nat, calls: seq<Call>, client: Id, from: Time, since: Time)
    requires limit > 0 && Ordered(calls, since)
    ensures Admitted(map[], limit, calls, client, from) <= 2 * limit - 1
  {
    AdmittedWithinAllowance(map[], limit, calls, client, from, since);
  }

  function Burst(client: Id, now: Time, n: nat): seq<Call> {
    seq(n, _ => Request(client, now))
  }

  lemma {:induction false} BurstIsAdmitted(clients: Clients, limit: nat, client: Id, from: Time, now: Time, n: nat, rest: seq<Call>)
    requires from <= now < from + WINDOW && LiveAt(clients, client, now).Some?
    requires n <= Room(clients[client], limit)
    ensures var w := clients[client];
      Admitted(clients, limit, Burst(client, now, n) + rest, client, from)
      == n + Admitted(clients[client := w.(count := w.count + n)], limit, rest, client, from)
    ensures Ordered(rest, now) ==> Ordered(Burst(client, now, n) + rest, now)
    decreases n
  {
    var calls := Burst(client, now, n) + rest;
    if n == 0 {
      assert calls == rest && clients[client := clients[client]] == clients;
    } else {
      assert calls[1..] == Burst(client, now, n - 1) + rest;
      var w := clients[client];
      var next := clients[client := w.(count := w.count + 1)];
      BurstIsAdmitted(next, limit, client, from, now, n - 1, rest);
      assert next[client := w.(count := w.count + n)] == clients[client := w.(count := w.count + n)];
    }
  }

  /** The bound is sharp: for every limit there is a run that reaches it. */
  lemma BoundIsReached(limit: nat, client: Id) returns (calls: seq<Call>)
    requires limit > 0
    ensures Ordered(calls, 0) && Admitted(map[], limit, calls, client, 1) == 2 * limit - 1
  {
    var first, late := Request(client, 0), Burst(client, WINDOW, limit - 1);
    var second := [Request(client, WINDOW)] + late;
    var middle := Burst(client, WINDOW - 1, limit - 1) + second;
    calls := [first] + middle;
    var full := map[client := Window(0, limit)];
    assert calls[1..] == middle;
    assert After(map[], limit, first) == map[client := Window(0, 1)];
    assert Admitted(full, limit, second, client, 1) == limit && Ordered(second, WINDOW - 1) by {
      assert second[1..] == late && late + [] == late;
      BurstIsAdmitted(full[client := Window(WINDOW, 1)], limit, client, 1, WINDOW, limit - 1, []);
    }
    BurstIsAdmitted(map[client := Window(0, 1)], limit, client, 1, WINDOW - 1, limit - 1, second);
    assert map[client := Window(0, 1)][client := Window(0, limit)] == full;
    assert Ordered(middle, 0);
  }

  // ---- Retry-After ------------------------------------------------------------------------------

  predicate WithoutClient(calls: seq<Call>, client: Id, until: Time) {
    forall i :: 0 <= i < |calls| ==> calls[i].now <= until && (calls[i].Request? ==> calls[i].client != client)
  }

  lemma {:induction false} OthersLeaveTheWindow(clients: Clients, limit: nat, calls: seq<Call>, client: Id, until: Time)
    requires WithoutClient(calls, client, until)
    ensures LiveAt(AfterAll(clients, limit, calls), client, until) == LiveAt(clients, client, until)
    decreases |calls|
  {
    if calls != [] {
      OthersLeaveTheWindow(After(clients, limit, calls[0]), limit, calls[1..], client, until);
    }
  }

  /** A refusal names the least whole number of seconds after which the client's next
    * request is admitted, whatever other clients and sweeps do in between. */
  lemma RetryAfterIsLeast(clients: Clients, limit: nat, client: Id, now: Time, others: seq<Call>, wait: nat)
    requires client in clients ==> clients[client].started <= now
    requires Allow(clients, limit, client, now).decision.Reject?
    requires WithoutClient(others, client, now + wait * 1_000_000_000)
    ensures var o := Allow(clients, limit, client, now);
      && 1 <= o.decision.seconds <= 60
      && clients[client].count >= limit && now < clients[client].started + MINUTE
      && (Allow(AfterAll(o.clients, limit, others), limit, client, now + wait * 1_000_000_000).decision.Admit?
          <==> wait >= o.decision.seconds)
  {
    OthersLeaveTheWindow(clients, limit, others, client, now + wait * 1_000_000_000);
  }

  predicate StartedBy(clients: Clients, now: Time) {
    forall k :: k in clients ==> clients[k].started <= now
  }

  /** Windows never start in the future, so the premise above holds in every run. */
  lemma {:induction false} WindowsStartInThePast(clients: Clients, limit: nat, calls: seq<Call>, since: Time, now: Time)
    requires Ordered(calls, since) && StartedBy(clients, since)
    requires since <= now && forall i :: 0 <= i < |calls| ==> calls[i].now <= now
    ensures StartedBy(AfterAll(clients, limit, calls), now)
    decreases |calls|
  {
    if calls != [] {
      var next := After(clients, limit, calls[0]);
      assert StartedBy(next, calls[0].now);
      WindowsStartInThePast(next, limit, calls[1..], calls[0].now, now);
      assert AfterAll(clients, limit, calls) == AfterAll(next, limit, calls[1..]);
    }
  }
}
