/** What one reconcile does to the store, as a function of the store and of the calls that fail
    (internal/controller/updatetask_controller.go). */
module Rollout {
  import opened UpdateTypes
  import opened Objects
  import opened Nodes
  import opened Scopes
  import opened Status
  import opened ControlPlanes

  datatype Gate = Unreadable | Running | FailedNode | Open

  /** How the loop over the node tasks ends: at the first task that blocks, or by going through. */
  function NodeGate(ns: seq<NodeTask>): (g: Gate)
    ensures g.Open? <==> forall n :: n in ns ==> IsReadable(n) && IsSettled(StateOf(n))
  {
    if ns == [] then Open
    else if !IsReadable(ns[0]) then Unreadable
    else if !IsTerminated(StateOf(ns[0])) then Running
    else if StateOf(ns[0]).Failed? then FailedNode
    else
      assert ns == [ns[0]] + ns[1..];
      NodeGate(ns[1..])
  }

  /** The next machine to update: the first in creation order that is in scope and has no node task. */
  function NextMachine(sorted: seq<Machine>, done: set<string>, taskName: string): Option<Machine> {
    if sorted == [] then None
    else if sorted[0].name !in done && IsMachineInUpdateScope(sorted[0], taskName) then Some(sorted[0])
    else NextMachine(sorted[1..], done, taskName)
  }

  // Effect of a piece of a reconcile: on the store, on the task in memory, and what it returns.
  datatype Work = Work(store: Store, task: UpdateTask, result: Result, failed: bool)

  // With the gate open: create for the next machine, if there is one.
  function CreateWork(s: Store, machines: seq<Machine>, done: set<string>, t: UpdateTask, calls: Calls): (w: Work)
    ensures w.task.name == t.name && w.store == s.(nodeTasks := w.store.nodeTasks)
  {
    match NextMachine(SortedByCreation(machines), done, t.name)
    case None => Work(s, t, NO_RESULT, false)
    case Some(m) =>
      var c := Create(s, t, m.name, calls);
      Work(c.store, c.task, if c.ok then CHANGED_REQUEUE_AFTER else NO_RESULT, !c.ok)
  }

  ghost function NormalWork(s: Store, scope: Scope, t: UpdateTask, calls: Calls): (w: Work)
    ensures w.task.name == t.name && w.store == s.(nodeTasks := w.store.nodeTasks)
  {
    match NodeGate(scope.nodes)
    case Unreadable => Work(s, t, NO_RESULT, true)
    case Running => Work(s, t, NO_RESULT, false)
    case FailedNode => Work(s, t, NO_RESULT, false)
    case Open =>
      match GateSpec(s, t, calls)
      case CheckFailed => Work(s, t, NO_RESULT, true)
      case Checked(result) =>
        if !IsZero(result) then Work(s, t, result, false)
        else CreateWork(s, scope.machines, Newest(Statuses(scope.nodes)).Keys, t, calls)
  }

  datatype AbortOutcome = AbortOutcome(nodes: seq<NodeTask>, ok: bool)

  /** The abort loop: patch what is not terminated, stop at the first failure. */
  function AbortRun(stored: seq<NodeTask>, todo: seq<NodeTask>, calls: Calls): AbortOutcome
    decreases todo
  {
    if todo == [] then AbortOutcome(stored, true)
    else if !IsReadable(todo[0]) then AbortOutcome(stored, false)
    else if IsTerminated(StateOf(todo[0])) then AbortRun(stored, todo[1..], calls)
    else if todo[0].name in calls.abortPatches then AbortOutcome(stored, false)
    else AbortRun(SetAbort(stored, todo[0]), todo[1..], calls)
  }

  function StatusState(scope: Scope): State
    requires AllReadable(scope.nodes)
  {
    StateFrom(scope.task, Count(SortedByCreation(scope.machines), Newest(Statuses(scope.nodes)), scope.task.name))
  }

  function StatusMachines(s: Store, scope: Scope, calls: Calls): seq<Machine>
    requires AllReadable(scope.nodes)
  {
    PatchAll(s.machines, SortedByCreation(scope.machines), Newest(Statuses(scope.nodes)), scope.task.name, calls)
  }

  ghost function StatusWork(s: Store, scope: Scope, calls: Calls): Work {
    if !AllReadable(scope.nodes) then Work(s, scope.task, NO_RESULT, true)
    else
      var t := scope.task.(state := StatusState(scope));
      Work(s.(machines := StatusMachines(s, scope, calls)), t, NO_RESULT, false)
  }

  ghost function ScopedWork(s: Store, scope: Scope, calls: Calls): (w: Work)
    ensures w.task.name == scope.task.name
    ensures w.store == s.(nodeTasks := w.store.nodeTasks,
                          machines := if AllReadable(scope.nodes) then StatusMachines(s, scope, calls) else s.machines)
  {
    var w := StatusWork(s, scope, calls);
    if w.failed then w
    else if AbortRequested(w.task) then
      var a := AbortRun(w.store.nodeTasks, scope.nodes, calls);
      Work(w.store.(nodeTasks := a.nodes), w.task, NO_RESULT, !a.ok)
    else if w.task.phase.Update? then NormalWork(w.store, scope, w.task, calls)
    else w
  }

  datatype Outcome = Outcome(store: Store, result: Result, failed: bool)

  /** The deferred function: drop the finalizer of a terminated task, make sure an unfinished one is
      looked at again, and write the task. */
  function Deferred(w: Work, calls: Calls): Outcome {
    var terminated := IsTerminated(w.task.state);
    var saved := if terminated then w.task.(finalizer := false) else w.task;
    var result := if !terminated && !w.failed && IsZero(w.result) then w.result.(requeue := true) else w.result;
    if calls.patchTask then Outcome(w.store, result, true)
    else Outcome(w.store.(tasks := w.store.tasks[w.task.name := saved]), result, w.failed)
  }

  ghost function LoadedWork(s: Store, t: UpdateTask, calls: Calls): (w: Work)
    ensures w.task.name == t.name
  {
    if !t.finalizer then Work(s, t.(finalizer := true), CHANGED_REQUEUE_AFTER, false)
    else
      var scope := NewScope(s, t, calls);
      if scope.None? then Work(s, t, NO_RESULT, true) else ScopedWork(s, scope.value, calls)
  }

  ghost function Reconciled(s: Store, name: string, calls: Calls): Outcome {
    if calls.getTask then Outcome(s, NO_RESULT, true)
    else if name !in s.tasks then Outcome(s, NO_RESULT, false)
    else if calls.taskHelper then Outcome(s, NO_RESULT, true)
    else Deferred(LoadedWork(s, s.tasks[name], calls), calls)
  }
}
