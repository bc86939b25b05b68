/** What one reconcile does and answers, in the fields of the objects it reads: when it fails, what it asks for, what
    it creates, aborts and reports. */
module Outcomes {
  import opened UpdateTypes
  import opened Objects
  import opened Nodes
  import opened Scopes
  import opened Status
  import opened ControlPlanes
  import opened Rollout
  import opened RolloutFacts

  // An abort is asked for.
  predicate WantsAbort(t: UpdateTask) {
    t.deleting || t.phase == Abort
  }

  // The task wants to go on, and no node task of it is in the way.
  predicate MayGoOn(t: UpdateTask, nodes: seq<NodeTask>) {
    !WantsAbort(t) && t.phase == Update && forall n :: n in nodes ==> n.state in {Some(Updated), Some(Aborted)}
  }

  // A node task that has not come to an end.
  predicate IsUnfinished(n: NodeTask) {
    n.state !in {Some(Failed), Some(Updated), Some(Aborted)}
  }

  predicate IsAnnotatedFor(m: Machine, taskName: string) {
    && m.annotations.Some? && UpdateTaskAnnotation in m.annotations.value
    && m.annotations.value[UpdateTaskAnnotation] == taskName
  }

  // A machine the task has still to update.
  predicate IsNextUp(scope: Scope, m: Machine) {
    m in scope.machines && IsAnnotatedFor(m, scope.task.name) && !HasNode(scope.nodes, m.name)
  }

  ghost predicate HasNextUp(scope: Scope) {
    exists m :: IsNextUp(scope, m)
  }

  // Some node task has no machine name or no phase that can be read.
  predicate HasUnreadable(ns: seq<NodeTask>) {
    exists n :: n in ns && (n.machineName.None? || n.phase.None?)
  }

  // The template, or the creation itself, fails; or the generated name is taken.
  predicate IsRefused(s: Store, t: UpdateTask, calls: Calls) {
    || calls.getTemplate || t.templateRef !in s.templates || calls.buildNodeTask || calls.createNodeTask
    || exists n :: n in s.nodeTasks && n.gvk == NodeGvk(t.templateRef) && n.name == calls.generated.name
  }

  ghost predicate Creates(s: Store, t: UpdateTask, calls: Calls) {
    && MayGoOn(t, ScopeFor(s, t).nodes) && GateSpec(s, t, calls) == Checked(Result(false, 0))
    && HasNextUp(ScopeFor(s, t)) && !IsRefused(s, t, calls)
  }

  // The work between finalizer and deferred function fails.
  ghost predicate PassFails(s: Store, t: UpdateTask, calls: Calls) {
    var nodes := ScopeFor(s, t).nodes;
    || NewScope(s, t, calls).None?
    || HasUnreadable(nodes)
    || (WantsAbort(t) && exists n :: n in nodes && IsUnfinished(n) && n.name in calls.abortPatches)
    || (MayGoOn(t, nodes) &&
        (GateSpec(s, t, calls).CheckFailed? ||
         (GateSpec(s, t, calls) == Checked(Result(false, 0)) && HasNextUp(ScopeFor(s, t)) && IsRefused(s, t, calls))))
  }

  /******* The gate, after the conditions have been reported *******/

  // Only the MachineUpToDate conditions differ.
  predicate SameButConditions(a: seq<Machine>, b: seq<Machine>) {
    |a| == |b| && forall i :: 0 <= i < |a| ==> b[i] == a[i].(upToDate := b[i].upToDate)
  }

  lemma SameOwned(s: Store, s': Store, cp: ControlPlane)
    requires ClusterName in cp.labels && SameButConditions(s.machines, s'.machines)
    ensures (exists m :: IsOwnedMachine(s, cp, m) && m.deleting) ==> exists m :: IsOwnedMachine(s', cp, m) && m.deleting
    ensures var external := cp.hasClusterConfiguration && cp.externalEtcd;
      (exists m :: IsOwnedMachine(s, cp, m) && !HasAllConditions(m, external)) ==>
        exists m :: IsOwnedMachine(s', cp, m) && !HasAllConditions(m, external)
  {
    var external := cp.hasClusterConfiguration && cp.externalEtcd;
    if m :| IsOwnedMachine(s, cp, m) && m.deleting {
      var i :| 0 <= i < |s.machines| && s.machines[i] == m;
      assert IsOwnedMachine(s', cp, s'.machines[i]) && s'.machines[i].deleting;
    }
    if m :| IsOwnedMachine(s, cp, m) && !HasAllConditions(m, external) {
      var i :| 0 <= i < |s.machines| && s.machines[i] == m;
      assert IsOwnedMachine(s', cp, s'.machines[i]) && !HasAllConditions(s'.machines[i], external);
    }
  }

  // The gate does not look at them.
  lemma SameGate(s: Store, s': Store, t: UpdateTask, t': UpdateTask, calls: Calls)
    requires SameButConditions(s.machines, s'.machines) && s'.controlPlanes == s.controlPlanes
    requires t'.controlPlane == t.controlPlane
    ensures GateSpec(s', t', calls) == GateSpec(s, t, calls)
  {
    GateOutcome(s, t, calls);
    GateOutcome(s', t', calls);
    if GateApplies(s, t) {
      var cp := s.controlPlanes[t.controlPlane.value.name];
      SameOwned(s, s', cp);
      SameOwned(s', s, cp);
    }
  }

  lemma PatchesKeep(s: Store, t: UpdateTask, calls: Calls)
    requires ValidStore(s) && AllReadable(ScopeFor(s, t).nodes)
    ensures SameButConditions(s.machines, StatusMachines(s, ScopeFor(s, t), calls))
  {
    forall i | 0 <= i < |s.machines|
      ensures var m := StatusMachines(s, ScopeFor(s, t), calls)[i]; m == s.machines[i].(upToDate := m.upToDate)
    {
      PatchedMachine(s, t, calls, i);
    }
  }

  /******* The pieces of a reconcile *******/

  lemma {:induction false} ReadableGate(ns: seq<NodeTask>)
    requires AllReadable(ns)
    ensures !NodeGate(ns).Unreadable?
    ensures NodeGate(ns).Open? <==> forall n :: n in ns ==> n.state in {Some(Updated), Some(Aborted)}
  {
    if ns != [] {
      assert ns[0] in ns && forall n :: n in ns <==> n == ns[0] || n in ns[1..];
      ReadableGate(ns[1..]);
    }
  }

  lemma {:induction false} FirstNext(sorted: seq<Machine>, done: set<string>, taskName: string)
    ensures NextMachine(sorted, done, taskName).Some? <==>
      exists m :: m in sorted && m.name !in done && IsAnnotatedFor(m, taskName)
  {
    if sorted != [] {
      assert forall m :: m in sorted <==> m == sorted[0] || m in sorted[1..];
      FirstNext(sorted[1..], done, taskName);
    }
  }

  lemma NextExact(scope: Scope)
    requires AllReadable(scope.nodes)
    ensures NextMachine(SortedByCreation(scope.machines), NewestOf(scope.nodes).Keys, scope.task.name).Some? <==>
            HasNextUp(scope)
  {
    var done := NewestOf(scope.nodes).Keys;
    SortedMembers(scope.machines);
    FirstNext(SortedByCreation(scope.machines), done, scope.task.name);
    forall m | m in scope.machines && IsAnnotatedFor(m, scope.task.name)
      ensures m.name !in done <==> IsNextUp(scope, m)
    {
      KnownMachines(scope.nodes, m.name);
    }
  }

  lemma RefusedExact(s: Store, t: UpdateTask, machineName: string, calls: Calls)
    ensures Create(s, t, machineName, calls).ok <==> !IsRefused(s, t, calls)
  {
    if t.templateRef in s.templates {
      var n := NewNodeTask(t, machineName, s.templates[t.templateRef], calls.generated);
      assert NodeExists(s.nodeTasks, n) <==>
        exists x :: x in s.nodeTasks && x.gvk == NodeGvk(t.templateRef) && x.name == calls.generated.name;
    }
  }

  lemma {:induction false} AbortFails(stored: seq<NodeTask>, todo: seq<NodeTask>, calls: Calls)
    requires AllReadable(todo)
    ensures AbortRun(stored, todo, calls).ok <==>
            !exists n :: n in todo && IsUnfinished(n) && n.name in calls.abortPatches
    decreases todo
  {
    if todo != [] {
      assert forall n :: n in todo <==> n == todo[0] || n in todo[1..];
      AbortFails(if IsUnfinished(todo[0]) then SetAbort(stored, todo[0]) else stored, todo[1..], calls);
    }
  }

  // What the update branch answers.
  lemma NormalOutcome(s: Store, scope: Scope, t: UpdateTask, calls: Calls)
    requires AllReadable(scope.nodes) && t.name == scope.task.name && MayGoOn(scope.task, scope.nodes)
    ensures var w, gate := NormalWork(s, scope, t, calls), GateSpec(s, t, calls);
      && (w.failed <==> gate.CheckFailed? ||
                        (gate == Checked(Result(false, 0)) && HasNextUp(scope) && IsRefused(s, t, calls)))
      && w.result ==
         (if w.failed then Result(false, 0)
          else if gate != Checked(Result(false, 0)) then gate.result
          else if HasNextUp(scope) then Result(false, 100) else Result(false, 0))
  {
    ReadableGate(scope.nodes);
    NextExact(scope);
    GateOutcome(s, t, calls);
    var next := NextMachine(SortedByCreation(scope.machines), Newest(Statuses(scope.nodes)).Keys, t.name);
    if next.Some? { RefusedExact(s, t, next.value.name, calls); }
  }

  lemma BlockedOutcome(s: Store, scope: Scope, t: UpdateTask, calls: Calls)
    requires AllReadable(scope.nodes) && exists n :: n in scope.nodes && n.state !in {Some(Updated), Some(Aborted)}
    ensures NormalWork(s, scope, t, calls) == Work(s, t, Result(false, 0), false)
  {
    ReadableGate(scope.nodes);
  }

  // What is true of the work between snapshot and deferred function, for a snapshot that can be read.
  lemma BodyOutcome(s: Store, t: UpdateTask, calls: Calls)
    requires ValidStore(s) && AllReadable(ScopeFor(s, t).nodes)
    ensures var w, scope, gate := ScopedWork(s, ScopeFor(s, t), calls), ScopeFor(s, t), GateSpec(s, t, calls);
      && (w.failed <==>
            || (WantsAbort(t) && exists n :: n in scope.nodes && IsUnfinished(n) && n.name in calls.abortPatches)
            || (MayGoOn(t, scope.nodes) &&
                (gate.CheckFailed? ||
                 (gate == Checked(Result(false, 0)) && HasNextUp(scope) && IsRefused(s, t, calls)))))
      && w.result ==
         (if w.failed || !MayGoOn(t, scope.nodes) then Result(false, 0)
          else if gate != Checked(Result(false, 0)) then gate.result
          else if HasNextUp(scope) then Result(false, 100) else Result(false, 0))
  {
    var scope := ScopeFor(s, t);
    var w := StatusWork(s, scope, calls);
    PatchesKeep(s, t, calls);
    if WantsAbort(t) {
      AbortFails(w.store.nodeTasks, scope.nodes, calls);
    } else if MayGoOn(t, scope.nodes) {
      SameGate(s, w.store, t, w.task, calls);
      NormalOutcome(w.store, scope, w.task, calls);
    } else if t.phase == Update {
      BlockedOutcome(w.store, scope, w.task, calls);
    }
  }

  lemma BodyState(s: Store, scope: Scope, calls: Calls)
    requires AllReadable(scope.nodes)
    ensures ScopedWork(s, scope, calls).task.state == StatusState(scope)
  {
  }

  lemma ReadableExact(ns: seq<NodeTask>)
    ensures AllReadable(ns) <==> !HasUnreadable(ns)
  {
  }

  /** When a reconcile fails: exactly when a call it makes fails, or the snapshot, a node task, the control plane or the
      template cannot be read, or the creation is refused. */
  lemma ReconcileFails(s: Store, name: string, calls: Calls)
    requires ValidStore(s)
    ensures Reconciled(s, name, calls).failed <==>
      || calls.getTask
      || (name in s.tasks && (calls.taskHelper || calls.patchTask ||
                              (s.tasks[name].finalizer && PassFails(s, s.tasks[name], calls))))
  {
    if name in s.tasks && s.tasks[name].finalizer {
      var t := s.tasks[name];
      ReadableExact(ScopeFor(s, t).nodes);
      if AllReadable(ScopeFor(s, t).nodes) { BodyOutcome(s, t, calls); }
    }
  }

  /** What a reconcile asks for: after 100 ms when it has set the finalizer or created a node task; what the gate asks
      for while it is closed; nothing when it fails or the task has come to an end; at once otherwise. */
  lemma ReconcileResult(s: Store, name: string, calls: Calls)
    requires ValidStore(s)
    ensures Reconciled(s, name, calls).result ==
      if calls.getTask || name !in s.tasks || calls.taskHelper then Result(false, 0)
      else
        var t := s.tasks[name];
        if !t.finalizer then Result(false, 100)
        else if PassFails(s, t, calls) then Result(false, 0)
        else if Creates(s, t, calls) then Result(false, 100)
        else if MayGoOn(t, ScopeFor(s, t).nodes) && GateSpec(s, t, calls) != Checked(Result(false, 0))
        then GateSpec(s, t, calls).result
        else Result(StatusState(ScopeFor(s, t)) !in {Failed, Updated, Aborted}, 0)
  {
    if name in s.tasks && s.tasks[name].finalizer && !calls.getTask && !calls.taskHelper {
      var t := s.tasks[name];
      ReadableExact(ScopeFor(s, t).nodes);
      if NewScope(s, t, calls).Some? && AllReadable(ScopeFor(s, t).nodes) {
        BodyOutcome(s, t, calls);
        BodyState(s, ScopeFor(s, t), calls);
        GateOutcome(s, t, calls);
      }
    }
  }

  // The reconcile finds the task with its finalizer, takes the snapshot and can read it.
  ghost predicate Reads(s: Store, name: string, calls: Calls) {
    && !calls.getTask && name in s.tasks && !calls.taskHelper && s.tasks[name].finalizer
    && NewScope(s, s.tasks[name], calls).Some? && !HasUnreadable(ScopeFor(s, s.tasks[name]).nodes)
  }

  lemma ReadsBody(s: Store, name: string, calls: Calls)
    requires ValidStore(s) && Reads(s, name, calls)
    ensures AllReadable(ScopeFor(s, s.tasks[name]).nodes)
    ensures var w := ScopedWork(s, ScopeFor(s, s.tasks[name]), calls);
      Reconciled(s, name, calls) == Deferred(w, calls) && w.task.name == name
  {
    ReadableExact(ScopeFor(s, s.tasks[name]).nodes);
  }

  /** In particular a node task that can be read and is running or has failed is no error: nothing is created, and
      the task is looked at again at once, unless all selected machines are done. */
  lemma BlockedIsQuiet(s: Store, name: string)
    requires ValidStore(s) && Reads(s, name, NO_FAILURES)
    requires s.tasks[name].phase == Update && !s.tasks[name].deleting
    requires exists n :: n in ScopeFor(s, s.tasks[name]).nodes && n.state !in {Some(Updated), Some(Aborted)}
    ensures var o := Reconciled(s, name, NO_FAILURES);
      && !o.failed && o.store.nodeTasks == s.nodeTasks
      && o.result == Result(StatusState(ScopeFor(s, s.tasks[name])) == InProgress, 0)
  {
    ReconcileFails(s, name, NO_FAILURES);
    ReconcileResult(s, name, NO_FAILURES);
    ReadsBody(s, name, NO_FAILURES);
    var scope := ScopeFor(s, s.tasks[name]);
    var w := StatusWork(s, scope, NO_FAILURES);
    BlockedOutcome(w.store, scope, w.task, NO_FAILURES);
  }

  /******* The newest node task of a machine *******/

  // The first, in list order, of the latest node tasks for the machine.
  predicate IsNewestAt(ns: seq<NodeTask>, name: string, k: nat) {
    && k < |ns| && ns[k].machineName == Some(name)
    && forall j :: 0 <= j < |ns| && ns[j].machineName == Some(name) ==>
         if j < k then ns[j].created < ns[k].created else ns[j].created <= ns[k].created
  }

  lemma NewestMeans(ns: seq<NodeTask>, name: string)
    requires AllReadable(ns)
    ensures name in NewestOf(ns) <==> HasNode(ns, name)
    ensures name in NewestOf(ns) ==> exists k: nat :: IsNewestAt(ns, name, k)
    ensures forall k: nat :: IsNewestAt(ns, name, k) ==> name in NewestOf(ns) && NewestOf(ns)[name] == StatusOf(ns[k])
  {
    KnownMachines(ns, name);
    if name in NewestOf(ns) {
      var p := NewestAt(Statuses(ns), name);
      assert forall j :: 0 <= j < |ns| ==> ns[j] in ns && Statuses(ns)[j] == StatusOf(ns[j]);
      assert IsNewestAt(ns, name, p);
      forall k: nat | IsNewestAt(ns, name, k) ensures k == p {
      }
    }
    forall k: nat | IsNewestAt(ns, name, k) ensures HasNode(ns, name) {
      assert ns[k] in ns;
    }
  }

  // The machine waits, or its newest node task is in one of these states.
  ghost predicate HasNewestIn(ns: seq<NodeTask>, name: string, states: set<Option<State>>) {
    exists k: nat :: IsNewestAt(ns, name, k) && ns[k].state in states
  }

  /** What a readable snapshot makes of the task: under an abort it is Aborted unless the newest node task of a selected
      machine is in progress or has no state yet; otherwise it is Updated exactly when the newest node task of every
      selected machine is Updated, but for machines without node task that are not annotated for it. */
  lemma StateMeans(scope: Scope)
    requires AllReadable(scope.nodes)
    ensures StatusState(scope) ==
      if scope.task.deleting || scope.task.phase == Abort then
        if exists m :: m in scope.machines && HasNewestIn(scope.nodes, m.name, {None, Some(Unknown), Some(InProgress)})
        then InProgress else Aborted
      else
        if forall m :: m in scope.machines ==>
          HasNewestIn(scope.nodes, m.name, {Some(Updated)}) ||
          (!HasNode(scope.nodes, m.name) && !IsAnnotatedFor(m, scope.task.name))
        then Updated else InProgress
  {
    forall m | m in scope.machines
      ensures IsRunning(m, NewestOf(scope.nodes)) <==>
        HasNewestIn(scope.nodes, m.name, {None, Some(Unknown), Some(InProgress)})
      ensures IsDone(m, NewestOf(scope.nodes), scope.task.name) <==>
        HasNewestIn(scope.nodes, m.name, {Some(Updated)}) ||
        (!HasNode(scope.nodes, m.name) && !IsAnnotatedFor(m, scope.task.name))
    {
      NewestMeans(scope.nodes, m.name);
    }
    if AbortRequested(scope.task) { AbortedIsExact(scope); } else { UpdatedIsExact(scope); }
  }

  /******* Conditions of machines *******/

  // The machine is one the task may report on, and no call for it fails.
  predicate MayReportOn(t: UpdateTask, m: Machine, calls: Calls) {
    && IsAboutMachine(t, m) && IsAnnotatedFor(m, t.name)
    && m.name !in calls.machineHelpers && m.name !in calls.machinePatches
  }

  lemma MachinesAfter(s: Store, name: string, calls: Calls)
    requires ValidStore(s) && Reads(s, name, calls)
    ensures AllReadable(ScopeFor(s, s.tasks[name]).nodes)
    ensures Reconciled(s, name, calls).store.machines == StatusMachines(s, ScopeFor(s, s.tasks[name]), calls)
  {
    ReadsBody(s, name, calls);
  }

  lemma ReportedMachine(s: Store, t: UpdateTask, calls: Calls, i: nat)
    requires ValidStore(s) && AllReadable(ScopeFor(s, t).nodes) && i < |s.machines|
    ensures var m := s.machines[i];
      StatusMachines(s, ScopeFor(s, t), calls)[i] ==
        if MayReportOn(t, m, calls) then m.(upToDate := ConditionFor(m, NewestOf(ScopeFor(s, t).nodes))) else m
  {
    PatchedMachine(s, t, calls, i);
    SelectedExact(s, t, s.machines[i]);
    PatchedOrSame(s.machines[i], NewestOf(ScopeFor(s, t).nodes), t.name, calls);
  }

  // Nothing is sent where nothing changes.
  lemma PatchedOrSame(m: Machine, newest: StatusMap, taskName: string, calls: Calls)
    ensures (if GetsPatched(m, newest, taskName, calls) then m.(upToDate := ConditionFor(m, newest)) else m) ==
      if IsAnnotatedFor(m, taskName) && m.name !in calls.machineHelpers && m.name !in calls.machinePatches
      then m.(upToDate := ConditionFor(m, newest)) else m
  {
  }

  lemma ConditionMeans(m: Machine, ns: seq<NodeTask>, k: nat)
    requires AllReadable(ns) && IsNewestAt(ns, m.name, k)
    ensures ConditionFor(m, NewestOf(ns)) ==
      if ns[k].state == Some(Updated) then IsUpToDate
      else if ns[k].state == Some(Failed) then NotUpToDate("Failed")
      else if ns[k].state == Some(Aborted) then NotUpToDate("Aborted")
      else if ns[k].state == Some(InProgress) then NotUpToDate("InProgress")
      else m.upToDate
  {
    NewestMeans(ns, m.name);
  }

  /** After a reconcile the condition of a machine it may report on says what its newest node task says: True for
      Updated, False with the state as reason for Failed, Aborted and InProgress, and for a state that was never
      written or is none of these what it said before. */
  lemma ReportedCondition(s: Store, name: string, calls: Calls, i: nat, k: nat)
    requires ValidStore(s) && Reads(s, name, calls)
    requires i < |s.machines| && MayReportOn(s.tasks[name], s.machines[i], calls)
    requires IsNewestAt(ScopeFor(s, s.tasks[name]).nodes, s.machines[i].name, k)
    ensures |Reconciled(s, name, calls).store.machines| == |s.machines|
    ensures var m, state := s.machines[i], ScopeFor(s, s.tasks[name]).nodes[k].state;
      Reconciled(s, name, calls).store.machines[i] == m.(upToDate :=
        if state == Some(Updated) then IsUpToDate
        else if state == Some(Failed) then NotUpToDate("Failed")
        else if state == Some(Aborted) then NotUpToDate("Aborted")
        else if state == Some(InProgress) then NotUpToDate("InProgress")
        else m.upToDate)
  {
    MachinesAfter(s, name, calls);
    ReportedMachine(s, s.tasks[name], calls, i);
    ConditionMeans(s.machines[i], ScopeFor(s, s.tasks[name]).nodes, k);
  }

  /** Without node task it is False with reason WaitForUpdate. */
  lemma WaitingCondition(s: Store, name: string, calls: Calls, i: nat)
    requires ValidStore(s) && Reads(s, name, calls)
    requires i < |s.machines| && MayReportOn(s.tasks[name], s.machines[i], calls)
    requires !HasNode(ScopeFor(s, s.tasks[name]).nodes, s.machines[i].name)
    ensures |Reconciled(s, name, calls).store.machines| == |s.machines|
    ensures Reconciled(s, name, calls).store.machines[i] == s.machines[i].(upToDate := NotUpToDate("WaitForUpdate"))
  {
    MachinesAfter(s, name, calls);
    ReportedMachine(s, s.tasks[name], calls, i);
    WaitingMeans(s.machines[i], ScopeFor(s, s.tasks[name]).nodes);
  }

  lemma WaitingMeans(m: Machine, ns: seq<NodeTask>)
    requires AllReadable(ns) && !HasNode(ns, m.name)
    ensures ConditionFor(m, NewestOf(ns)) == NotUpToDate("WaitForUpdate")
  {
    NewestMeans(ns, m.name);
  }

  /** And no other machine changes, in no reconcile at all. */
  lemma OtherMachines(s: Store, name: string, calls: Calls, i: nat)
    requires ValidStore(s) && i < |s.machines|
    requires !Reads(s, name, calls) || !MayReportOn(s.tasks[name], s.machines[i], calls)
    ensures |Reconciled(s, name, calls).store.machines| == |s.machines|
    ensures Reconciled(s, name, calls).store.machines[i] == s.machines[i]
  {
    if Reads(s, name, calls) {
      MachinesAfter(s, name, calls);
      ReportedMachine(s, s.tasks[name], calls, i);
    } else if name in s.tasks {
      ReadableExact(ScopeFor(s, s.tasks[name]).nodes);
    }
  }

  /******* Node tasks *******/

  // No other machine that is next up was created before m, or at the same time with a smaller name.
  ghost predicate IsFirstUp(scope: Scope, m: Machine) {
    && IsNextUp(scope, m)
    && forall x :: IsNextUp(scope, x) ==>
         !(x.created < m.created || (x.created == m.created && LexLess(x.name, m.name)))
  }

  lemma {:induction false} NextIsEarliest(sorted: seq<Machine>, done: set<string>, taskName: string)
    requires InCreationOrder(sorted) && NextMachine(sorted, done, taskName).Some?
    ensures var m := NextMachine(sorted, done, taskName).value;
      && m in sorted && m.name !in done && IsAnnotatedFor(m, taskName)
      && forall x :: x in sorted && x.name !in done && IsAnnotatedFor(x, taskName) ==> x == m || !Before(x, m)
  {
    assert forall x :: x in sorted <==> x == sorted[0] || x in sorted[1..];
    if sorted[0].name in done || !IsMachineInUpdateScope(sorted[0], taskName) {
      NextIsEarliest(sorted[1..], done, taskName);
    }
  }

  lemma TargetIsFirstUp(scope: Scope) returns (m: Machine)
    requires AllReadable(scope.nodes) && HasNextUp(scope)
    ensures IsFirstUp(scope, m)
    ensures NextMachine(SortedByCreation(scope.machines), NewestOf(scope.nodes).Keys, scope.task.name) == Some(m)
  {
    NextExact(scope);
    var sorted, done := SortedByCreation(scope.machines), NewestOf(scope.nodes).Keys;
    m := NextMachine(sorted, done, scope.task.name).value;
    SortedInOrder(scope.machines);
    SortedMembers(scope.machines);
    NextIsEarliest(sorted, done, scope.task.name);
    forall x | x in scope.machines ensures x.name in done <==> HasNode(scope.nodes, x.name) {
      KnownMachines(scope.nodes, x.name);
    }
    BeforeTotal(m, m);
  }

  // A creation for the first machine in order.
  ghost predicate IsCreatedFor(s: Store, scope: Scope, t: UpdateTask, calls: Calls, m: Machine, after: seq<NodeTask>) {
    && IsFirstUp(scope, m) && t.templateRef in s.templates
    && after == Insert(s.nodeTasks, calls.generated.position,
                       NewNodeTask(t, m.name, s.templates[t.templateRef], calls.generated))
  }

  lemma CreatesFirst(s: Store, scope: Scope, t: UpdateTask, calls: Calls) returns (m: Machine)
    requires AllReadable(scope.nodes) && t.name == scope.task.name && HasNextUp(scope) && !IsRefused(s, t, calls)
    ensures var w := CreateWork(s, scope.machines, NewestOf(scope.nodes).Keys, t, calls);
      IsCreatedFor(s, scope, t, calls, m, w.store.nodeTasks)
  {
    m := TargetIsFirstUp(scope);
    RefusedExact(s, t, m.name, calls);
  }

  lemma CreatesNothing(s: Store, scope: Scope, t: UpdateTask, calls: Calls)
    requires AllReadable(scope.nodes) && t.name == scope.task.name && (!HasNextUp(scope) || IsRefused(s, t, calls))
    ensures CreateWork(s, scope.machines, NewestOf(scope.nodes).Keys, t, calls).store == s
  {
    NextExact(scope);
    var next := NextMachine(SortedByCreation(scope.machines), NewestOf(scope.nodes).Keys, t.name);
    if next.Some? { RefusedExact(s, t, next.value.name, calls); }
  }

  lemma NormalIsCreation(s: Store, scope: Scope, t: UpdateTask, calls: Calls)
    requires AllReadable(scope.nodes) && !WantsAbort(scope.task) && scope.task.phase == Update
    ensures NormalWork(s, scope, t, calls).store ==
      if MayGoOn(scope.task, scope.nodes) && GateSpec(s, t, calls) == Checked(Result(false, 0))
      then CreateWork(s, scope.machines, NewestOf(scope.nodes).Keys, t, calls).store else s
  {
    ReadableGate(scope.nodes);
    GateOutcome(s, t, calls);
  }

  lemma NormalCreates(s: Store, scope: Scope, t: UpdateTask, calls: Calls)
    requires AllReadable(scope.nodes) && t.name == scope.task.name
    requires !WantsAbort(scope.task) && scope.task.phase == Update
    ensures var after := NormalWork(s, scope, t, calls).store.nodeTasks;
      if MayGoOn(scope.task, scope.nodes) && GateSpec(s, t, calls) == Checked(Result(false, 0)) && HasNextUp(scope) &&
         !IsRefused(s, t, calls)
      then exists m :: IsCreatedFor(s, scope, t, calls, m, after)
      else after == s.nodeTasks
  {
    NormalIsCreation(s, scope, t, calls);
    if HasNextUp(scope) && !IsRefused(s, t, calls) {
      var m := CreatesFirst(s, scope, t, calls);
    } else {
      CreatesNothing(s, scope, t, calls);
    }
  }

  // The conditions that have been reported make no difference to a creation.
  lemma SameCreation(s: Store, s': Store, t: UpdateTask, t': UpdateTask, calls: Calls)
    requires SameButConditions(s.machines, s'.machines) && s' == s.(machines := s'.machines)
    requires t' == t.(state := t'.state)
    ensures GateSpec(s', t', calls) == GateSpec(s, t, calls) && IsRefused(s', t', calls) == IsRefused(s, t, calls)
    ensures forall scope, m, after ::
      IsCreatedFor(s', scope, t', calls, m, after) <==> IsCreatedFor(s, scope, t, calls, m, after)
  {
    SameGate(s, s', t, t', calls);
  }

  lemma BodyCreates(s: Store, t: UpdateTask, calls: Calls)
    requires ValidStore(s) && AllReadable(ScopeFor(s, t).nodes) && !WantsAbort(t)
    ensures var after := ScopedWork(s, ScopeFor(s, t), calls).store.nodeTasks;
      if Creates(s, t, calls) then exists m :: IsCreatedFor(s, ScopeFor(s, t), t, calls, m, after)
      else after == s.nodeTasks
  {
    var w := StatusWork(s, ScopeFor(s, t), calls);
    PatchesKeep(s, t, calls);
    SameCreation(s, w.store, t, w.task, calls);
    if t.phase == Update {
      NormalCreates(w.store, ScopeFor(s, t), w.task, calls);
    }
  }

  /** When a reconcile creates, and what: only if no abort is asked for, every node task is Updated or Aborted, the gate
      passes, some machine is next up and the creation is not refused; and then for the first such machine in order.
      A reconcile without abort changes the node tasks in no other way. */
  lemma ReconcileCreates(s: Store, name: string, calls: Calls)
    requires ValidStore(s)
    ensures var after := Reconciled(s, name, calls).store.nodeTasks;
      if Reads(s, name, calls) && Creates(s, s.tasks[name], calls)
      then exists m :: IsCreatedFor(s, ScopeFor(s, s.tasks[name]), s.tasks[name], calls, m, after)
      else (Reads(s, name, calls) && WantsAbort(s.tasks[name])) || after == s.nodeTasks
  {
    if Reads(s, name, calls) {
      ReadsBody(s, name, calls);
      if !WantsAbort(s.tasks[name]) { BodyCreates(s, s.tasks[name], calls); }
    } else if name in s.tasks {
      ReadableExact(ScopeFor(s, s.tasks[name]).nodes);
    }
  }

  // The listed node task j is sent an abort.
  predicate IsSentAbort(todo: seq<NodeTask>, k: nat, n: NodeTask) {
    exists j :: 0 <= j < k && j < |todo| && IsUnfinished(todo[j]) && todo[j].gvk == n.gvk && todo[j].name == n.name
  }

  /** The abort loop sends aborts in list order to what is unfinished, up to the first patch that fails. */
  lemma {:induction false} AbortsInOrder(stored: seq<NodeTask>, todo: seq<NodeTask>, calls: Calls) returns (k: nat)
    requires AllReadable(todo)
    ensures k <= |todo| && forall j :: 0 <= j < k && IsUnfinished(todo[j]) ==> todo[j].name !in calls.abortPatches
    ensures k < |todo| ==> IsUnfinished(todo[k]) && todo[k].name in calls.abortPatches
    ensures var r := AbortRun(stored, todo, calls);
      && (r.ok <==> k == |todo|) && |r.nodes| == |stored|
      && forall i :: 0 <= i < |stored| ==>
           r.nodes[i] == if IsSentAbort(todo, k, stored[i]) then stored[i].(phase := Some(Abort)) else stored[i]
    decreases todo
  {
    k := 0;
    if todo != [] && !(IsUnfinished(todo[0]) && todo[0].name in calls.abortPatches) {
      var next := if IsUnfinished(todo[0]) then SetAbort(stored, todo[0]) else stored;
      var p := AbortsInOrder(next, todo[1..], calls);
      k := p + 1;
      forall i | 0 <= i < |stored|
        ensures IsSentAbort(todo, k, stored[i]) <==>
          (IsUnfinished(todo[0]) && SameNode(stored[i], todo[0])) || IsSentAbort(todo[1..], p, next[i])
      {
        SentAbortStep(todo, p, stored[i], next[i]);
      }
    }
  }

  lemma SentAbortStep(todo: seq<NodeTask>, p: nat, n: NodeTask, n': NodeTask)
    requires todo != [] && n'.gvk == n.gvk && n'.name == n.name
    ensures IsSentAbort(todo, p + 1, n) <==>
      (IsUnfinished(todo[0]) && SameNode(n, todo[0])) || IsSentAbort(todo[1..], p, n')
  {
    if IsSentAbort(todo[1..], p, n') {
      var j :| 0 <= j < p && j < |todo[1..]| && IsUnfinished(todo[1..][j]) && todo[1..][j].gvk == n.gvk &&
               todo[1..][j].name == n.name;
      assert todo[j + 1] == todo[1..][j];
    }
    if IsSentAbort(todo, p + 1, n) {
      var j :| 0 <= j < p + 1 && j < |todo| && IsUnfinished(todo[j]) && todo[j].gvk == n.gvk && todo[j].name == n.name;
      assert j > 0 ==> todo[1..][j - 1] == todo[j];
    }
  }

  /** So a reconcile under an abort leaves the node tasks, whichever way the task asks for it. */
  lemma ReconcileAborts(s: Store, name: string, calls: Calls) returns (k: nat)
    requires ValidStore(s) && Reads(s, name, calls) && (s.tasks[name].deleting || s.tasks[name].phase == Abort)
    ensures var todo, after := ScopeFor(s, s.tasks[name]).nodes, Reconciled(s, name, calls).store.nodeTasks;
      && k <= |todo| && (forall j :: 0 <= j < k && IsUnfinished(todo[j]) ==> todo[j].name !in calls.abortPatches)
      && (k < |todo| ==> IsUnfinished(todo[k]) && todo[k].name in calls.abortPatches)
      && |after| == |s.nodeTasks|
      && forall i :: 0 <= i < |after| ==>
           after[i] == if IsSentAbort(todo, k, s.nodeTasks[i]) then s.nodeTasks[i].(phase := Some(Abort))
                       else s.nodeTasks[i]
  {
    ReadsBody(s, name, calls);
    k := AbortsInOrder(s.nodeTasks, ScopeFor(s, s.tasks[name]).nodes, calls);
  }

  /******* The task *******/

  // The creation has read the template and writes the label map of the task.
  ghost predicate WritesLabels(s: Store, t: UpdateTask, calls: Calls) {
    && MayGoOn(t, ScopeFor(s, t).nodes) && GateSpec(s, t, calls) == Checked(Result(false, 0))
    && HasNextUp(ScopeFor(s, t)) && !calls.getTemplate && t.templateRef in s.templates && t.templateLabels.Some?
  }

  function WithLabelsWritten(t: UpdateTask): UpdateTask
    requires t.templateLabels.Some?
  {
    t.(templateLabels := Some(t.templateLabels.value[ClusterName := t.cluster][UpdateTaskName := t.name]))
  }

  lemma CreateLabels(s: Store, scope: Scope, t: UpdateTask, calls: Calls)
    requires AllReadable(scope.nodes) && t.name == scope.task.name
    ensures CreateWork(s, scope.machines, NewestOf(scope.nodes).Keys, t, calls).task ==
      if HasNextUp(scope) && !calls.getTemplate && t.templateRef in s.templates && t.templateLabels.Some?
      then WithLabelsWritten(t) else t
  {
    NextExact(scope);
  }

  lemma NormalLabels(s: Store, scope: Scope, t: UpdateTask, calls: Calls)
    requires AllReadable(scope.nodes) && t.name == scope.task.name
    requires !WantsAbort(scope.task) && scope.task.phase == Update
    ensures NormalWork(s, scope, t, calls).task ==
      if MayGoOn(scope.task, scope.nodes) && GateSpec(s, t, calls) == Checked(Result(false, 0)) && HasNextUp(scope) &&
         !calls.getTemplate && t.templateRef in s.templates && t.templateLabels.Some?
      then WithLabelsWritten(t) else t
  {
    ReadableGate(scope.nodes);
    GateOutcome(s, t, calls);
    CreateLabels(s, scope, t, calls);
  }

  lemma BodyLabels(s: Store, t: UpdateTask, calls: Calls)
    requires ValidStore(s) && AllReadable(ScopeFor(s, t).nodes)
    ensures var t1 := t.(state := StatusState(ScopeFor(s, t)));
      ScopedWork(s, ScopeFor(s, t), calls).task == if WritesLabels(s, t, calls) then WithLabelsWritten(t1) else t1
  {
    if !WantsAbort(t) && t.phase == Update {
      var w := StatusWork(s, ScopeFor(s, t), calls);
      PatchesKeep(s, t, calls);
      SameGate(s, w.store, t, w.task, calls);
      NormalLabels(w.store, ScopeFor(s, t), w.task, calls);
    }
  }

  lemma SavesRead(s: Store, name: string, calls: Calls)
    requires ValidStore(s) && Reads(s, name, calls) && !calls.patchTask
    ensures var t := s.tasks[name];
      var state := StatusState(ScopeFor(s, t));
      var t1 := t.(state := state, finalizer := state !in {Failed, Updated, Aborted});
      Reconciled(s, name, calls).store.tasks ==
        s.tasks[name := if WritesLabels(s, t, calls) then WithLabelsWritten(t1) else t1]
  {
    ReadsBody(s, name, calls);
    BodyLabels(s, s.tasks[name], calls);
  }

  lemma SavesUnread(s: Store, name: string, calls: Calls)
    requires ValidStore(s) && name in s.tasks && !calls.getTask && !calls.taskHelper && !calls.patchTask
    requires !Reads(s, name, calls)
    ensures var t := s.tasks[name];
      Reconciled(s, name, calls).store.tasks == s.tasks[name := t.(finalizer := t.state !in {Failed, Updated, Aborted})]
  {
    ReadableExact(ScopeFor(s, s.tasks[name]).nodes);
  }

  /** What a reconcile writes to the task, and that it writes no other: the finalizer, if it was missing from a task
      that has not come to an end; the state the snapshot gives, with the finalizer taken away at the end; and the
      labels of its node tasks, when it has a map for them. */
  lemma ReconcileSaves(s: Store, name: string, calls: Calls)
    requires ValidStore(s)
    ensures Reconciled(s, name, calls).store.tasks ==
      if calls.getTask || name !in s.tasks || calls.taskHelper || calls.patchTask then s.tasks
      else
        var t := s.tasks[name];
        if !Reads(s, name, calls) then s.tasks[name := t.(finalizer := t.state !in {Failed, Updated, Aborted})]
        else
          var state := StatusState(ScopeFor(s, t));
          var t1 := t.(state := state, finalizer := state !in {Failed, Updated, Aborted});
          s.tasks[name := if WritesLabels(s, t, calls) then WithLabelsWritten(t1) else t1]
  {
    if name in s.tasks && !calls.getTask && !calls.taskHelper && !calls.patchTask {
      if Reads(s, name, calls) { SavesRead(s, name, calls); } else { SavesUnread(s, name, calls); }
    }
  }
}
