/** Properties of one reconcile, for every store and every way its calls may fail. */
module RolloutFacts {
  import opened UpdateTypes
  import opened Objects
  import opened Nodes
  import opened Scopes
  import opened Status
  import opened Rollout

  /******* Updated is exact and quiet *******/

  lemma {:induction false} NothingNext(sorted: seq<Machine>, done: set<string>, taskName: string)
    requires forall m :: m in sorted ==> m.name in done || !IsMachineInUpdateScope(m, taskName)
    ensures NextMachine(sorted, done, taskName).None?
  {
    if sorted != [] {
      assert sorted[0] in sorted;
      NothingNext(sorted[1..], done, taskName);
    }
  }

  lemma {:induction false} NoneNext(sorted: seq<Machine>, done: set<string>, taskName: string)
    requires NextMachine(sorted, done, taskName).None?
    ensures forall m :: m in sorted ==> m.name in done || !IsMachineInUpdateScope(m, taskName)
  {
    if sorted != [] {
      assert forall m :: m in sorted <==> m == sorted[0] || m in sorted[1..];
      NoneNext(sorted[1..], done, taskName);
    }
  }

  /** Without an abort, Updated is reported if and only if every selected machine has newest node task
      Updated, or has none and is out of scope. */
  lemma UpdatedIsExact(scope: Scope)
    requires AllReadable(scope.nodes) && !AbortRequested(scope.task)
    ensures StatusState(scope) == Updated <==>
      forall m :: m in scope.machines ==> IsDone(m, NewestOf(scope.nodes), scope.task.name)
    ensures StatusState(scope) != Updated ==> StatusState(scope) == InProgress
  {
    TallyExact(SortedByCreation(scope.machines), NewestOf(scope.nodes), scope.task.name);
    SortedMembers(scope.machines);
  }

  lemma UpdatedHasNoNext(scope: Scope)
    requires AllReadable(scope.nodes) && StatusState(scope) == Updated
    ensures NextMachine(SortedByCreation(scope.machines), NewestOf(scope.nodes).Keys, scope.task.name).None?
  {
    UpdatedIsExact(scope);
    SortedMembers(scope.machines);
    NothingNext(SortedByCreation(scope.machines), NewestOf(scope.nodes).Keys, scope.task.name);
  }

  lemma UpdatedCreatesNothing(s: Store, scope: Scope, t: UpdateTask, calls: Calls)
    requires AllReadable(scope.nodes) && !AbortRequested(scope.task) && StatusState(scope) == Updated
    requires t.name == scope.task.name
    ensures NormalWork(s, scope, t, calls).store == s
  {
    UpdatedHasNoNext(scope);
  }

  /** The reconcile that reports Updated creates and aborts no node task. */
  lemma UpdatedIsQuiet(s: Store, t: UpdateTask, calls: Calls)
    requires !AbortRequested(t) && AllReadable(ScopeFor(s, t).nodes) && StatusState(ScopeFor(s, t)) == Updated
    ensures ScopedWork(s, ScopeFor(s, t), calls).store.nodeTasks == s.nodeTasks
  {
    var w := StatusWork(s, ScopeFor(s, t), calls);
    UpdatedCreatesNothing(w.store, ScopeFor(s, t), w.task, calls);
  }

  predicate IsInRollout(s: Store, t: UpdateTask, m: Machine) {
    m in Selected(s, t) && IsMachineInUpdateScope(m, t.name)
  }

  lemma PatchedMachine(s: Store, t: UpdateTask, calls: Calls, i: nat)
    requires ValidStore(s) && AllReadable(ScopeFor(s, t).nodes) && i < |s.machines|
    ensures StatusMachines(s, ScopeFor(s, t), calls)[i] ==
      if s.machines[i] in Selected(s, t) && GetsPatched(s.machines[i], NewestOf(ScopeFor(s, t).nodes), t.name, calls)
      then s.machines[i].(upToDate := ConditionFor(s.machines[i], NewestOf(ScopeFor(s, t).nodes))) else s.machines[i]
  {
    SelectedDistinct(s, t);
    SortedMembers(Selected(s, t));
    PatchAllExact(s.machines, SortedByCreation(Selected(s, t)), NewestOf(ScopeFor(s, t).nodes), t.name, calls);
  }

  /** When Updated is reported and no machine patch fails, every machine in scope ends up to date. */
  lemma UpdatedMarksMachines(s: Store, t: UpdateTask, calls: Calls, i: nat)
    requires ValidStore(s) && !AbortRequested(t)
    requires AllReadable(ScopeFor(s, t).nodes) && StatusState(ScopeFor(s, t)) == Updated
    requires calls.machineHelpers == {} && calls.machinePatches == {}
    requires i < |s.machines| && IsInRollout(s, t, s.machines[i])
    ensures i < |ScopedWork(s, ScopeFor(s, t), calls).store.machines|
    ensures ScopedWork(s, ScopeFor(s, t), calls).store.machines[i] == s.machines[i].(upToDate := IsUpToDate)
  {
    UpdatedIsExact(ScopeFor(s, t));
    PatchedMachine(s, t, calls, i);
  }

  /******* Aborting *******/

  // The states a provider may report.
  predicate IsDeclared(n: NodeTask) {
    !StateOf(n).OtherState?
  }

  /** Under an abort, Aborted is reported if and only if no selected machine's newest node task is running. */
  lemma AbortedIsExact(scope: Scope)
    requires AllReadable(scope.nodes) && AbortRequested(scope.task)
    ensures StatusState(scope) == Aborted <==>
      forall m :: m in scope.machines ==> !IsRunning(m, NewestOf(scope.nodes))
    ensures StatusState(scope) != Aborted ==> StatusState(scope) == InProgress
  {
    TallyExact(SortedByCreation(scope.machines), NewestOf(scope.nodes), scope.task.name);
    SortedMembers(scope.machines);
  }

  // The machine of the node task is still among the selected ones.
  predicate IsOnSelected(scope: Scope, n: NodeTask) {
    exists m :: m in scope.machines && n.machineName == Some(m.name)
  }

  predicate IsNodeRunning(n: NodeTask) {
    StateOf(n).InProgress? || StateOf(n).Unknown?
  }

  lemma OnlyNode(ns: seq<NodeTask>, n: NodeTask)
    requires AllReadable(ns) && OnePerMachine(ns) && n in ns
    ensures n.machineName.value in Newest(Statuses(ns)) && Newest(Statuses(ns))[n.machineName.value] == StatusOf(n)
  {
    var i :| 0 <= i < |ns| && ns[i] == n;
    assert Statuses(ns)[i] == StatusOf(n) && StatusOf(n) in Statuses(ns);
    NewestHas(Statuses(ns), StatusOf(n));
    var k := NewestAt(Statuses(ns), n.machineName.value);
    assert Statuses(ns)[k] == StatusOf(ns[k]) && ns[k] in ns;
  }

  /** With one node task per machine, Aborted is reported if and only if no node task of a machine that is
      still selected is running: exactly the node tasks of removed machines are not waited for. */
  lemma AbortedWaitsForSelected(scope: Scope)
    requires AllReadable(scope.nodes) && AbortRequested(scope.task) && OnePerMachine(scope.nodes)
    ensures StatusState(scope) == Aborted <==>
      forall n :: n in scope.nodes && IsOnSelected(scope, n) ==> !IsNodeRunning(n)
  {
    AbortedIsExact(scope);
    var newest := NewestOf(scope.nodes);
    forall n | n in scope.nodes && IsOnSelected(scope, n)
      ensures exists m :: m in scope.machines && (IsRunning(m, newest) <==> IsNodeRunning(n))
      ensures IsNodeRunning(n) ==> exists m :: m in scope.machines && IsRunning(m, newest)
    {
      OnlyNode(scope.nodes, n);
      var m :| m in scope.machines && n.machineName == Some(m.name);
      assert IsRunning(m, newest) <==> IsNodeRunning(n);
    }
    forall m | m in scope.machines && IsRunning(m, newest)
      ensures exists n :: n in scope.nodes && IsOnSelected(scope, n) && IsNodeRunning(n)
    {
      var k := NewestAt(Statuses(scope.nodes), m.name);
      assert scope.nodes[k] in scope.nodes && StatusOf(scope.nodes[k]) == newest[m.name];
    }
  }

  /******* Done *******/

  // Every node task of a selected machine is Updated, and every selected machine in scope has one.
  predicate IsAllDone(scope: Scope) {
    && (forall n :: n in scope.nodes && IsOnSelected(scope, n) ==> StateOf(n).Updated?)
    && forall m :: m in scope.machines && IsMachineInUpdateScope(m, scope.task.name) ==>
         HasNode(scope.nodes, m.name)
  }

  lemma KnownMachines(ns: seq<NodeTask>, machineName: string)
    requires AllReadable(ns)
    ensures machineName in NewestOf(ns).Keys <==> HasNode(ns, machineName)
  {
    NewestExact(Statuses(ns), machineName);
    if machineName in NewestOf(ns) {
      var st :| st in Statuses(ns) && st.machine == machineName;
      var i :| 0 <= i < |ns| && Statuses(ns)[i] == st;
      assert ns[i] in ns;
    }
    if HasNode(ns, machineName) {
      var n :| n in ns && n.machineName == Some(machineName);
      var i :| 0 <= i < |ns| && ns[i] == n;
      assert Statuses(ns)[i] in Statuses(ns);
    }
  }

  lemma NewestStates(ns: seq<NodeTask>, name: string)
    requires AllReadable(ns) && OnePerMachine(ns)
    ensures name in NewestOf(ns) <==> HasNode(ns, name)
    ensures forall n :: n in ns && n.machineName == Some(name) ==>
      name in NewestOf(ns) && NewestOf(ns)[name] == StatusOf(n)
  {
    forall n | n in ns && n.machineName == Some(name)
      ensures name in NewestOf(ns) && NewestOf(ns)[name] == StatusOf(n)
    {
      OnlyNode(ns, n);
    }
    if name in NewestOf(ns) {
      var k := NewestAt(Statuses(ns), name);
      assert ns[k] in ns && ns[k].machineName == Some(name);
    }
  }

  lemma DoneExact(scope: Scope)
    requires AllReadable(scope.nodes) && OnePerMachine(scope.nodes)
    ensures IsAllDone(scope) <==> forall m :: m in scope.machines ==> IsDone(m, NewestOf(scope.nodes), scope.task.name)
  {
    var newest := NewestOf(scope.nodes);
    forall m | m in scope.machines && IsAllDone(scope) ensures IsDone(m, newest, scope.task.name) {
      NewestStates(scope.nodes, m.name);
    }
    if forall m :: m in scope.machines ==> IsDone(m, newest, scope.task.name) {
      forall n | n in scope.nodes && IsOnSelected(scope, n) ensures StateOf(n).Updated? {
        var m :| m in scope.machines && n.machineName == Some(m.name);
        NewestStates(scope.nodes, m.name);
      }
      forall m | m in scope.machines && IsMachineInUpdateScope(m, scope.task.name)
        ensures HasNode(scope.nodes, m.name)
      {
        NewestStates(scope.nodes, m.name);
      }
    }
  }

  /******* The abort loop *******/

  // What the abort loop leaves of one stored node task.
  predicate AbortedFrom(before: NodeTask, after: NodeTask, todo: seq<NodeTask>) {
    || after == before
    || (before in todo && !IsTerminated(StateOf(before)) && after == before.(phase := Some(Abort)))
  }

  /** The abort loop changes nothing but the phase of listed node tasks that are not terminated; when it
      succeeds every listed one is terminated or in phase Abort. */
  lemma {:induction false} AbortLoop(
    stored: seq<NodeTask>, original: seq<NodeTask>, todo: seq<NodeTask>, k: nat, calls: Calls)
    requires |stored| == |original| && DistinctNodes(original) && k <= |todo|
    requires forall n :: n in todo ==> n in original
    requires forall i :: 0 <= i < |stored| ==> AbortedFrom(original[i], stored[i], todo[..k])
    requires forall i :: 0 <= i < |stored| && original[i] in todo[..k] && !IsTerminated(StateOf(original[i])) ==>
      stored[i].phase == Some(Abort)
    ensures var r := AbortRun(stored, todo[k..], calls);
      && |r.nodes| == |original|
      && (forall i :: 0 <= i < |original| ==> AbortedFrom(original[i], r.nodes[i], todo))
      && (r.ok ==> forall i :: 0 <= i < |original| && original[i] in todo && !IsTerminated(StateOf(original[i])) ==>
            r.nodes[i].phase == Some(Abort))
    decreases |todo| - k
  {
    if k < |todo| {
      var n := todo[k];
      assert todo[k..][1..] == todo[k + 1..] && todo[..k + 1] == todo[..k] + [n];
      if IsReadable(n) {
        var next := if IsTerminated(StateOf(n)) then stored else SetAbort(stored, n);
        assert n in todo;
        var p :| 0 <= p < |original| && original[p] == n;
        forall i | 0 <= i < |stored| && SameNode(stored[i], n) ensures i == p {
          assert SameNode(original[i], original[p]);
        }
        if IsTerminated(StateOf(n)) || n.name !in calls.abortPatches {
          AbortLoop(next, original, todo, k + 1, calls);
        }
      }
    } else {
      assert todo[k..] == [] && todo[..k] == todo;
    }
  }

  lemma AbortPart(s: Store, t: UpdateTask, calls: Calls)
    requires AbortRequested(t)
    ensures var w, todo := ScopedWork(s, ScopeFor(s, t), calls), Listed(s.nodeTasks, KeyOf(t));
      var r := AbortRun(s.nodeTasks, todo, calls);
      if AllReadable(todo) then w.store.nodeTasks == r.nodes && w.failed == !r.ok
      else w.store.nodeTasks == s.nodeTasks && w.failed
  {
  }

  lemma AbortWhole(stored: seq<NodeTask>, key: NodeKey, calls: Calls)
    requires DistinctNodes(stored)
    ensures var todo := Listed(stored, key);
      var r := AbortRun(stored, todo, calls);
      && |r.nodes| == |stored|
      && (forall i :: 0 <= i < |stored| ==> AbortedFrom(stored[i], r.nodes[i], todo))
      && (r.ok ==> forall i :: 0 <= i < |stored| && BelongsTo(stored[i], key) ==>
            IsTerminated(StateOf(stored[i])) || r.nodes[i].phase == Some(Abort))
  {
    var todo := Listed(stored, key);
    ListedMembers(stored, key);
    assert todo[0..] == todo;
    AbortLoop(stored, stored, todo, 0, calls);
    assert forall i :: 0 <= i < |stored| ==> stored[i] in stored;
  }

  /** Abort safety of one reconcile. It creates nothing; what was terminated is untouched; if it succeeds,
      every node task of the task is terminated or in phase Abort. */
  lemma AbortIsSafe(s: Store, t: UpdateTask, calls: Calls)
    requires ValidStore(s) && AbortRequested(t)
    ensures var w := ScopedWork(s, ScopeFor(s, t), calls);
      && |w.store.nodeTasks| == |s.nodeTasks|
      && (forall i :: 0 <= i < |s.nodeTasks| ==>
            AbortedFrom(s.nodeTasks[i], w.store.nodeTasks[i], Listed(s.nodeTasks, KeyOf(t))))
      && (!w.failed ==> forall i :: 0 <= i < |s.nodeTasks| && BelongsTo(s.nodeTasks[i], KeyOf(t)) ==>
            IsTerminated(StateOf(s.nodeTasks[i])) || w.store.nodeTasks[i].phase == Some(Abort))
  {
    AbortPart(s, t, calls);
    AbortWhole(s.nodeTasks, KeyOf(t), calls);
  }

  // Only node tasks of machines that are no longer selected, or in an undeclared state, have changed.
  predicate OnlyStrays(scope: Scope, before: seq<NodeTask>, after: seq<NodeTask>) {
    && |after| == |before|
    && forall i :: 0 <= i < |after| && after[i] != before[i] ==>
         before[i] in scope.nodes && !(IsDeclared(before[i]) && IsOnSelected(scope, before[i]))
  }

  /** The reconcile that reports Aborted sends abort patches only to node tasks of machines that are no longer
      selected, or in a state that is none of the declared ones: if there are none of these, it changes no
      node task. */
  lemma AbortedIsQuiet(s: Store, t: UpdateTask, calls: Calls)
    requires ValidStore(s) && AbortRequested(t)
    requires AllReadable(Listed(s.nodeTasks, KeyOf(t))) && OnePerMachine(Listed(s.nodeTasks, KeyOf(t)))
    requires StatusState(ScopeFor(s, t)) == Aborted
    ensures var scope, after := ScopeFor(s, t), ScopedWork(s, ScopeFor(s, t), calls).store.nodeTasks;
      && OnlyStrays(scope, s.nodeTasks, after)
      && ((forall n :: n in scope.nodes ==> IsDeclared(n) && IsOnSelected(scope, n)) ==> after == s.nodeTasks)
  {
    AbortedWaitsForSelected(ScopeFor(s, t));
    AbortIsSafe(s, t, calls);
    var w := ScopedWork(s, ScopeFor(s, t), calls);
    forall i | 0 <= i < |s.nodeTasks|
      ensures w.store.nodeTasks[i] == s.nodeTasks[i] ||
              (s.nodeTasks[i] in ScopeFor(s, t).nodes &&
               !(IsDeclared(s.nodeTasks[i]) && IsOnSelected(ScopeFor(s, t), s.nodeTasks[i])))
    {
      assert AbortedFrom(s.nodeTasks[i], w.store.nodeTasks[i], Listed(s.nodeTasks, KeyOf(t)));
    }
  }

  /******* Terminal states and lost tasks *******/

  /** The finalizer that a reconcile adds to a terminated task is taken away again before it is saved: the
      store does not change, whatever calls fail. The request is nevertheless asked for again, after a tenth
      of a second, every time. */
  lemma TerminatedIsUntouched(s: Store, name: string, calls: Calls)
    requires ValidStore(s) && name in s.tasks && IsTerminated(s.tasks[name].state) && !s.tasks[name].finalizer
    ensures Reconciled(s, name, calls).store == s
    ensures !calls.getTask && !calls.taskHelper ==> Reconciled(s, name, calls).result == CHANGED_REQUEUE_AFTER
  {
    if !calls.getTask && !calls.taskHelper {
      var t := s.tasks[name];
      assert t.(finalizer := true).(finalizer := false) == t;
      assert s.tasks[name := t] == s.tasks;
    }
  }

  lemma DeferredLosesNothing(w: Work, calls: Calls)
    ensures var o := Deferred(w, calls);
      || o.failed
      || !IsZero(o.result)
      || (w.task.name in o.store.tasks && IsTerminated(o.store.tasks[w.task.name].state) &&
          !o.store.tasks[w.task.name].finalizer)
  {
  }

  /** No task is lost: every reconcile of a stored task ends with an error, with a request to be called
      again, or with the task saved in a terminal state and without finalizer. */
  lemma NoTaskIsLost(s: Store, name: string, calls: Calls)
    requires ValidStore(s) && name in s.tasks
    ensures var o := Reconciled(s, name, calls);
      || o.failed
      || !IsZero(o.result)
      || (name in o.store.tasks && IsTerminated(o.store.tasks[name].state) && !o.store.tasks[name].finalizer)
  {
    DeferredLosesNothing(LoadedWork(s, s.tasks[name], calls), calls);
  }
}
