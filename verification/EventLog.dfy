/** The per-run event log and the server-sent-events reader that polls it. */
module EventLog {
  import opened Base
  import opened Tasks
  import TP = TaskProofs

  /** Events are numbered 1 to n without gaps, in storage order. */
  ghost predicate Numbered(log: seq<Event>) {
    forall i :: 0 <= i < |log| ==> log[i].sequence == i + 1
  }

  lemma {:induction false} NumberedMax(log: seq<Event>)
    requires Numbered(log)
    ensures MaxSequence(log) == |log|
  {
    if log != [] {
      NumberedMax(log[..|log| - 1]);
    }
  }

  ghost predicate LogsNumbered(s: Store) {
    forall r :: r in s.events ==> Numbered(s.events[r])
  }

  lemma StepKeepsLogs(s: Store, op: Op, r: Id)
    requires LogsNumbered(s) && Enabled(s, op)
    ensures LogsNumbered(Apply(s, op))
    ensures EventsOf(s, r) <= EventsOf(Apply(s, op), r)
  {
    if op.Append? {
      AppendKeepsLogs(s, op.runId, op.event, op.dbNow);
    } else {
      OtherStepsKeepEvents(s, op);
    }
  }

  lemma AppendKeepsLogs(s: Store, runId: Id, event: EventInput, dbNow: Time)
    requires LogsNumbered(s)
    ensures LogsNumbered(AppendRunEvent(s, runId, event, dbNow).store)
    ensures forall r :: EventsOf(s, r) <= EventsOf(AppendRunEvent(s, runId, event, dbNow).store, r)
  {
    NumberedMax(EventsOf(s, runId));
  }

  lemma OtherStepsKeepEvents(s: Store, op: Op)
    requires Enabled(s, op) && !op.Append?
    ensures Apply(s, op).events == s.events
  {
  }

  /** In every behaviour a run's events stay numbered 1 to n and the log only grows at its end. */
  lemma {:induction false} LogsOnlyGrow(states: seq<Store>, ops: seq<Op>, i: nat, j: nat, r: Id)
    requires Behaviour(states, ops) && i <= j <= |ops| && LogsNumbered(states[i])
    ensures LogsNumbered(states[j]) && EventsOf(states[i], r) <= EventsOf(states[j], r)
    decreases j
  {
    if i < j {
      LogsOnlyGrow(states, ops, i, j - 1, r);
      assert Step(states[j - 1], ops[j - 1], states[j]);
      StepKeepsLogs(states[j - 1], ops[j - 1], r);
    }
  }

  // ----- listing -----

  function InsertBySequence(rows: seq<Event>, e: Event): seq<Event> {
    if rows == [] || rows[|rows| - 1].sequence <= e.sequence then rows + [e]
    else InsertBySequence(rows[..|rows| - 1], e) + [rows[|rows| - 1]]
  }

  /** SELECT ... WHERE sequence > after ORDER BY sequence. */
  function ListAfter(log: seq<Event>, after: int): seq<Event> {
    if log == [] then []
    else
      var rest := ListAfter(log[..|log| - 1], after);
      var last := log[|log| - 1];
      if last.sequence > after then InsertBySequence(rest, last) else rest
  }

  function From(log: seq<Event>, after: nat): seq<Event> {
    if after <= |log| then log[after..] else []
  }

  /** On a numbered log the query is the suffix that starts after the offset. */
  lemma {:induction false} ListingIsASuffix(log: seq<Event>, after: nat)
    requires Numbered(log)
    ensures ListAfter(log, after) == From(log, after)
  {
    if log != [] {
      var front := log[..|log| - 1];
      ListingIsASuffix(front, after);
      var rest := From(front, after);
      var last := log[|log| - 1];
      if last.sequence > after {
        assert InsertBySequence(rest, last) == rest + [last];
        assert log[after..] == front[after..] + [last];
      }
    }
  }

  // ----- the polling reader -----

  /** A stream is delivered up to and including its first terminal event. */
  function UpToTerminal(events: seq<Event>): seq<Event> {
    if events == [] then []
    else if events[0].input.terminal then [events[0]]
    else [events[0]] + UpToTerminal(events[1..])
  }

  predicate Quiet(events: seq<Event>) {
    forall i :: 0 <= i < |events| ==> !events[i].input.terminal
  }

  lemma {:induction false} UpToTerminalOfQuiet(quiet: seq<Event>, rest: seq<Event>)
    requires Quiet(quiet)
    ensures UpToTerminal(quiet + rest) == quiet + UpToTerminal(rest)
  {
    if quiet == [] {
      assert quiet + rest == rest;
    } else {
      UpToTerminalOfQuiet(quiet[1..], rest);
      assert (quiet + rest)[1..] == quiet[1..] + rest;
    }
  }

  /** What was delivered before a terminal event arrived is final: later events do not change it. */
  lemma {:induction false} UpToTerminalIsFinal(events: seq<Event>, all: seq<Event>)
    requires events <= all && !Quiet(events)
    ensures UpToTerminal(all) == UpToTerminal(events)
  {
    if !events[0].input.terminal {
      UpToTerminalIsFinal(events[1..], all[1..]);
    }
  }

  /** Run r's log is numbered and only grows, and the run does not go away. */
  ghost predicate Growing(snapshots: seq<Store>, r: Id) {
    && (forall i :: 0 <= i < |snapshots| ==> Numbered(EventsOf(snapshots[i], r)))
    && (forall i, j :: 0 <= i <= j < |snapshots| ==> EventsOf(snapshots[i], r) <= EventsOf(snapshots[j], r))
    && (forall i, j :: 0 <= i <= j < |snapshots| && r in snapshots[i].runs ==> r in snapshots[j].runs)
  }

  lemma FromGrows(log: seq<Event>, log': seq<Event>, after: nat)
    requires log <= log'
    ensures From(log, after) <= From(log', after)
  {
    if after <= |log| {
      assert log'[after..][..|log| - after] == log[after..];
    }
  }

  ghost predicate Continues(events: seq<Event>, cursor: int) {
    forall i :: 0 <= i < |events| ==> events[i].sequence == cursor + 1 + i
  }

  /** A reader that polls at any non-decreasing moments of any behaviour sees a growing log. */
  lemma PollsOfABehaviourGrow(states: seq<Store>, ops: seq<Op>, times: seq<nat>, r: Id)
    requires Behaviour(states, ops) && states[0] == EMPTY
    requires forall i :: 0 <= i < |times| ==> times[i] <= |ops|
    requires forall i, j :: 0 <= i <= j < |times| ==> times[i] <= times[j]
    ensures Growing(seq(|times|, i requires 0 <= i < |times| => states[times[i]]), r)
  {
    var polls := seq(|times|, i requires 0 <= i < |times| => states[times[i]]);
    forall i | 0 <= i < |polls|
      ensures LogsNumbered(states[times[i]]) && Numbered(EventsOf(polls[i], r))
    {
      LogsOnlyGrow(states, ops, 0, times[i], r);
    }
    forall i, j | 0 <= i <= j < |polls|
      ensures EventsOf(polls[i], r) <= EventsOf(polls[j], r) && (r in polls[i].runs ==> r in polls[j].runs)
    {
      LogsOnlyGrow(states, ops, times[i], times[j], r);
      if r in polls[i].runs { TP.RunStays(states, ops, times[i], times[j], r); }
    }
  }

  /** What a poll returns continues what was already sent. */
  lemma PollExtends(sent: seq<Event>, log: seq<Event>, offset: nat)
    requires Numbered(log) && sent <= From(log, offset)
    ensures sent + From(log, offset + |sent|) == From(log, offset)
    ensures Continues(From(log, offset + |sent|), offset + |sent|)
  {
  }

  /** One pass over a poll's events: write each, advance the cursor, stop at a terminal event. */
  method Send(events: seq<Event>, cursor: int) returns (sent: seq<Event>, after: int, stopped: bool)
    requires Continues(events, cursor)
    ensures sent == UpToTerminal(events)
    ensures stopped <==> !Quiet(events)
    ensures after == cursor + |sent|
    ensures !stopped ==> sent == events
  {
    sent, after, stopped := [], cursor, false;
    var i := 0;
    while i < |events|
      invariant 0 <= i <= |events|
      invariant sent == events[..i] && Quiet(sent) && !stopped
      invariant after == cursor + i
    {
      var event := events[i];
      ghost var before := sent;
      sent, after := sent + [event], event.sequence;
      if event.input.terminal {
        assert events == before + events[i..];
        UpToTerminalOfQuiet(before, events[i..]);
        stopped := true;
        return;
      }
      i := i + 1;
    }
    UpToTerminalOfQuiet(events, []);
    assert events + [] == events;
  }

  /** One turn of the loop: send the events listed after the cursor. */
  method Poll(events: seq<Event>, sent: seq<Event>, after: nat, ghost log: seq<Event>, ghost offset: nat)
    returns (all: seq<Event>, cursor: nat, stopped: bool)
    requires events == ListAfter(log, after)
    requires Numbered(log) && Quiet(sent) && sent <= From(log, offset) && after == offset + |sent|
    ensures cursor == offset + |all|
    ensures stopped <==> !Quiet(From(log, offset))
    ensures all == UpToTerminal(From(log, offset))
    ensures !stopped ==> all == From(log, offset)
  {
    assert events == From(log, after) by { ListingIsASuffix(log, after); }
    assert sent + events == From(log, offset) && Continues(events, after) by { PollExtends(sent, log, offset); }
    var more, last, over := Send(events, after);
    assert UpToTerminal(sent + events) == sent + UpToTerminal(events) by { UpToTerminalOfQuiet(sent, events); }
    assert Quiet(sent + events) <==> Quiet(events) by { QuietParts(sent, events); }
    return sent + more, last, over;
  }

  lemma QuietParts(sent: seq<Event>, events: seq<Event>)
    requires Quiet(sent)
    ensures Quiet(sent + events) <==> Quiet(events)
  {
    if !Quiet(events) {
      var k :| 0 <= k < |events| && events[k].input.terminal;
      assert (sent + events)[|sent| + k].input.terminal;
    }
  }

  /** ListRunEvents: an unknown run is an error. */
  function ListRunEvents(s: Store, runId: Id, after: int): Result<seq<Event>, Error> {
    if runId !in s.runs then Err(RunNotFound) else Ok(ListAfter(EventsOf(s, runId), after))
  }

  /** The listing of a known run is exactly its later events, in order; only an unknown run is refused. */
  lemma ListingIsExact(s: Store, runId: Id, after: nat)
    requires Numbered(EventsOf(s, runId))
    ensures ListRunEvents(s, runId, after) == (if runId in s.runs then Ok(From(EventsOf(s, runId), after)) else Err(RunNotFound))
  {
    ListingIsASuffix(EventsOf(s, runId), after);
  }

  /** The cursor loop of runEvents. Each poll sees the store as it is at that moment, so the reader is
      interleaved with any appends; it stops at an error, at a terminal event, or when polling ends
      (deadline or disconnect). A run that is unknown at the first poll ends the stream with an error and
      no event. Otherwise no error ever occurs, and every event after the offset is sent exactly once,
      in order, up to and including the first terminal one. */
  method RunEvents(snapshots: seq<Store>, runId: Id, offset: nat) returns (sent: seq<Event>, error: Option<Error>)
    requires |snapshots| > 0 && Growing(snapshots, runId)
    ensures error == if runId in snapshots[0].runs then None else Some(RunNotFound)
    ensures sent == if runId in snapshots[0].runs then UpToTerminal(From(EventsOf(snapshots[|snapshots| - 1], runId), offset)) else []
  {
    sent, error := [], None;
    var after, poll, stopped := offset, 0, false;
    while !stopped && poll < |snapshots|
      invariant 0 <= poll <= |snapshots| && error.None? && after == offset + |sent|
      invariant poll == 0 ==> sent == [] && !stopped
      invariant poll > 0 ==> runId in snapshots[0].runs && Sent(sent, EventsOf(snapshots[poll - 1], runId), offset, stopped)
    {
      ghost var log := EventsOf(snapshots[poll], runId);
      var listed := ListRunEvents(snapshots[poll], runId, after);
      if listed.Err? {
        error := Some(listed.error);
        return;
      }
      if poll > 0 { FromGrows(EventsOf(snapshots[poll - 1], runId), log, offset); }
      sent, after, stopped := Poll(listed.value, sent, after, log, offset);
      poll := poll + 1;
    }
    ghost var seen, final := EventsOf(snapshots[poll - 1], runId), EventsOf(snapshots[|snapshots| - 1], runId);
    if stopped {
      FromGrows(seen, final, offset);
      UpToTerminalIsFinal(From(seen, offset), From(final, offset));
    }
  }

  /** What has been sent once log was read: everything up to a terminal event, and whether there was one. */
  ghost predicate Sent(sent: seq<Event>, log: seq<Event>, offset: nat, stopped: bool) {
    && sent == UpToTerminal(From(log, offset))
    && (stopped <==> !Quiet(From(log, offset)))
    && (!stopped ==> sent == From(log, offset))
  }
}
