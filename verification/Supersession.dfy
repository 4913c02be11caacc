/** The graph of superseded-by pointers: when it has a cycle. */
module Supersession {
  import opened Base
  import opened Tasks
  import opened TaskProofs

  function Hop(tasks: map<Id, Task>, id: Id): Option<Id> {
    if id in tasks then tasks[id].supersededBy else None
  }

  /** The task n pointers away. */
  function Follow(tasks: map<Id, Task>, id: Id, n: nat): Option<Id> {
    if n == 0 then Some(id)
    else
      match Follow(tasks, id, n - 1)
      case None => None
      case Some(x) => Hop(tasks, x)
  }

  ghost predicate Acyclic(tasks: map<Id, Task>) {
    forall id, n: nat :: n > 0 ==> Follow(tasks, id, n) != Some(id)
  }

  lemma {:induction false} FollowJoined(tasks: map<Id, Task>, id: Id, a: nat, b: nat)
    requires Follow(tasks, id, a).Some?
    ensures Follow(tasks, id, a + b) == Follow(tasks, Follow(tasks, id, a).value, b)
  {
    if b > 0 { FollowJoined(tasks, id, a, b - 1); }
  }

  // ----- adding pointers to one task -----

  /** The selected tasks had no pointer and now point to newTask; the other pointers are as before. */
  ghost predicate Relinked(tasks: map<Id, Task>, tasks': map<Id, Task>, selected: set<Id>, newTask: Id) {
    forall id ::
      if id in selected then Hop(tasks, id) == None && Hop(tasks', id) == Some(newTask)
      else Hop(tasks', id) == Hop(tasks, id)
  }

  lemma {:induction false} OldPathsStay(tasks: map<Id, Task>, tasks': map<Id, Task>, selected: set<Id>, newTask: Id, id: Id, n: nat)
    requires Relinked(tasks, tasks', selected, newTask) && Follow(tasks, id, n).Some?
    ensures Follow(tasks', id, n) == Follow(tasks, id, n)
  {
    if n > 0 { OldPathsStay(tasks, tasks', selected, newTask, id, n - 1); }
  }

  /** Following old pointers from id meets a selected task within n hops. */
  ghost predicate Meets(tasks: map<Id, Task>, selected: set<Id>, id: Id, n: nat) {
    exists k: nat :: k < n && Follow(tasks, id, k).Some? && Follow(tasks, id, k).value in selected
  }

  lemma {:induction false} NewPathsMeet(tasks: map<Id, Task>, tasks': map<Id, Task>, selected: set<Id>, newTask: Id, id: Id, n: nat)
    requires Relinked(tasks, tasks', selected, newTask)
    ensures Follow(tasks', id, n) == Follow(tasks, id, n) || Meets(tasks, selected, id, n)
  {
    if n > 0 { NewPathsMeet(tasks, tasks', selected, newTask, id, n - 1); }
  }

  ghost predicate LeadsInto(tasks: map<Id, Task>, selected: set<Id>, newTask: Id) {
    exists n: nat :: Meets(tasks, selected, newTask, n)
  }

  /** A cycle can be entered anywhere. */
  lemma Rotate(tasks: map<Id, Task>, id: Id, other: Id, k: nat, m: nat)
    requires Follow(tasks, id, k) == Some(other) && Follow(tasks, id, k + m) == Some(id)
    ensures Follow(tasks, other, m + k) == Some(other)
  {
    assert Follow(tasks, other, m) == Some(id) by { FollowJoined(tasks, id, k, m); }
    assert Follow(tasks, other, m + k) == Follow(tasks, id, k) by { FollowJoined(tasks, other, m, k); }
  }

  /** A new cycle goes through newTask. */
  lemma CycleThroughNew(tasks: map<Id, Task>, tasks': map<Id, Task>, selected: set<Id>, newTask: Id, id: Id, n: nat)
    requires Relinked(tasks, tasks', selected, newTask) && Acyclic(tasks) && n > 0 && Follow(tasks', id, n) == Some(id)
    ensures Follow(tasks', newTask, n) == Some(newTask)
  {
    NewPathsMeet(tasks, tasks', selected, newTask, id, n);
    assert Meets(tasks, selected, id, n);
    var k: nat :| k < n && Follow(tasks, id, k).Some? && Follow(tasks, id, k).value in selected;
    assert Follow(tasks', id, k) == Follow(tasks, id, k) by { OldPathsStay(tasks, tasks', selected, newTask, id, k); }
    Rotate(tasks', id, newTask, k + 1, n - (k + 1));
  }

  /** Adding the pointers keeps the graph acyclic exactly when newTask does not lead into a selected task. */
  lemma RelinkExactly(tasks: map<Id, Task>, tasks': map<Id, Task>, selected: set<Id>, newTask: Id)
    requires Relinked(tasks, tasks', selected, newTask) && Acyclic(tasks)
    ensures Acyclic(tasks') <==> !LeadsInto(tasks, selected, newTask)
  {
    if LeadsInto(tasks, selected, newTask) {
      var n: nat :| Meets(tasks, selected, newTask, n);
      var k: nat :| k < n && Follow(tasks, newTask, k).Some? && Follow(tasks, newTask, k).value in selected;
      OldPathsStay(tasks, tasks', selected, newTask, newTask, k);
      assert Follow(tasks', newTask, k + 1) == Some(newTask);
    } else if !Acyclic(tasks') {
      var id, n: nat :| n > 0 && Follow(tasks', id, n) == Some(id);
      CycleThroughNew(tasks, tasks', selected, newTask, id, n);
      NewPathsMeet(tasks, tasks', selected, newTask, newTask, n);
    }
  }

  // ----- transactions -----

  function Selected(s: Store, op: Op): set<Id> {
    if op.Supersede? && op.newTask in s.tasks then
      set id | id in s.tasks && ToSupersede(s.tasks[id], id, op.repositoryId, op.providerId, op.pullRequest, op.newTask)
    else {}
  }

  /** The step supersedes, by a task that was itself superseded, the task at the end of that task's
      own chain of pointers. */
  ghost predicate ClosesLoop(s: Store, op: Op) {
    op.Supersede? && LeadsInto(s.tasks, Selected(s, op), op.newTask)
  }

  lemma SupersedeRelinks(s: Store, op: Op)
    requires Rows(s.tasks) && op.Supersede?
    ensures Relinked(s.tasks, Apply(s, op).tasks, Selected(s, op), op.newTask)
  {
    var tasks' := Apply(s, op).tasks;
    forall id
      ensures if id in Selected(s, op) then Hop(s.tasks, id) == None && Hop(tasks', id) == Some(op.newTask)
              else Hop(tasks', id) == Hop(s.tasks, id)
    {
      if id in s.tasks { assert GoodRow(id, s.tasks[id]); }
    }
  }

  lemma CompleteKeepsPointers(s: Store, op: Op, id: Id)
    requires op.Complete?
    ensures Hop(Apply(s, op).tasks, id) == Hop(s.tasks, id)
  {
  }

  lemma OthersKeepPointers(s: Store, op: Op, id: Id)
    requires !op.Supersede? && !op.Complete? && Enabled(s, op)
    ensures Hop(Apply(s, op).tasks, id) == Hop(s.tasks, id)
  {
  }

  lemma StepExactly(s: Store, op: Op)
    requires Rows(s.tasks) && Enabled(s, op) && Acyclic(s.tasks)
    ensures Acyclic(Apply(s, op).tasks) <==> !ClosesLoop(s, op)
  {
    if op.Supersede? {
      SupersedeRelinks(s, op);
      RelinkExactly(s.tasks, Apply(s, op).tasks, Selected(s, op), op.newTask);
    } else {
      forall id
        ensures Hop(Apply(s, op).tasks, id) == Hop(s.tasks, id)
      {
        if op.Complete? { CompleteKeepsPointers(s, op, id); } else { OthersKeepPointers(s, op, id); }
      }
      assert Relinked(s.tasks, Apply(s, op).tasks, {}, "");
      RelinkExactly(s.tasks, Apply(s, op).tasks, {}, "");
    }
  }

  /** In every fenced behaviour the pointers stay acyclic exactly when no step closes a loop. */
  lemma AcyclicExactly(states: seq<Store>, ops: seq<Op>)
    requires Behaviour(states, ops) && states[0] == EMPTY && forall i :: 0 <= i < |ops| ==> Fenced(ops[i])
    ensures (forall j :: 0 <= j < |states| ==> Acyclic(states[j].tasks)) <==> (forall j :: 0 <= j < |ops| ==> !ClosesLoop(states[j], ops[j]))
  {
    var holds := seq(|states|, j requires 0 <= j < |states| => Acyclic(states[j].tasks));
    var safe := seq(|ops|, j requires 0 <= j < |ops| => !ClosesLoop(states[j], ops[j]));
    forall i | 0 <= i < |safe| && holds[i]
      ensures holds[i + 1] <==> safe[i]
    {
      StepExactlyAt(states, ops, i);
    }
    NoPointersAtFirst();
    KeptExactly(holds, safe);
    assert forall j :: 0 <= j < |states| ==> holds[j] == Acyclic(states[j].tasks);
    assert forall j :: 0 <= j < |ops| ==> safe[j] == !ClosesLoop(states[j], ops[j]);
  }

  lemma StepExactlyAt(states: seq<Store>, ops: seq<Op>, i: nat)
    requires Behaviour(states, ops) && states[0] == EMPTY && i < |ops| && forall k :: 0 <= k < i ==> Fenced(ops[k])
    requires Acyclic(states[i].tasks)
    ensures Acyclic(states[i + 1].tasks) <==> !ClosesLoop(states[i], ops[i])
  {
    assert Inv(states[0]);
    InvAlong(states, ops, i);
    assert Step(states[i], ops[i], states[i + 1]);
    StepExactly(states[i], ops[i]);
  }

  lemma NoPointersAtFirst()
    ensures Acyclic(EMPTY.tasks)
  {
    forall id, n: nat | n > 0
      ensures Follow(EMPTY.tasks, id, n) != Some(id)
    {
      assert Follow(EMPTY.tasks, id, n).None? by { if n == 1 { assert Follow(EMPTY.tasks, id, 0) == Some(id); } }
    }
  }

  /** A task that is still live when it supersedes others closes no loop. */
  lemma LiveTaskClosesNoLoop(s: Store, op: Op)
    requires Rows(s.tasks) && op.Supersede? && op.newTask in s.tasks && s.tasks[op.newTask].status != Superseded
    ensures !ClosesLoop(s, op)
  {
    assert GoodRow(op.newTask, s.tasks[op.newTask]);
    forall k: nat | k > 0
      ensures Follow(s.tasks, op.newTask, k).None?
    {
      EndOfChain(s.tasks, op.newTask, k);
    }
  }

  lemma {:induction false} EndOfChain(tasks: map<Id, Task>, id: Id, k: nat)
    requires Hop(tasks, id).None? && k > 0
    ensures Follow(tasks, id, k).None?
  {
    if k == 1 { assert Follow(tasks, id, 0) == Some(id); } else { EndOfChain(tasks, id, k - 1); }
  }
}
