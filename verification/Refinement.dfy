/** A reconcile of the controller is a behaviour of the protocol: whatever calls fail, its effect on the
    store is that of a run of protocol steps with nothing in between. So what holds of every run of the
    protocol holds of the controller. */
module Refinement {
  import opened UpdateTypes
  import opened Objects
  import opened Nodes
  import opened Scopes
  import opened Status
  import opened ControlPlanes
  import opened Rollout
  import opened Protocol
  import opened Invariants

  // The flight of task t, at its scope, among otherwise unchanged flights.
  ghost predicate Flying(w: World, w': World, t: string, scope: Scope) {
    && t in w'.flights && w'.flights[t].scope == scope
    && w'.flights - {t} == w.flights - {t}
  }

  // No step of another actor.
  predicate IsUndisturbedRun(run: seq<Action>) {
    forall a :: a in run ==> !a.Environment?
  }

  lemma OneStep(w: World, a: Action)
    requires Enabled(w, a)
    ensures IsRun(w, [a]) && End(w, [a]) == Next(w, a)
  {
    assert [a][1..] == [];
  }

  lemma Extend(w: World, run: seq<Action>, a: Action)
    requires IsRun(w, run) && Enabled(End(w, run), a)
    ensures IsRun(w, run + [a]) && End(w, run + [a]) == Next(End(w, run), a)
  {
    OneStep(End(w, run), a);
    RunConcat(w, run, [a]);
  }

  // What a report of a node provider changes.
  lemma MoveIs(w: World, i: nat, st: State)
    requires i < |w.store.nodeTasks| && !IsTerminated(StateOf(w.store.nodeTasks[i]))
    ensures Enabled(w, Environment(MoveNode(i, st)))
    ensures Next(w, Environment(MoveNode(i, st))) ==
            w.(store := w.store.(nodeTasks := w.store.nodeTasks[i := w.store.nodeTasks[i].(state := Some(st))]))
  {
    assert w.log + [] == w.log;
  }

  lemma {:induction false} PatchingRun(w: World, t: string, todo: seq<Machine>, calls: Calls) returns (run: seq<Action>)
    requires t in w.flights && !w.flights[t].created && forall m :: m in todo ==> m in w.flights[t].scope.machines
    ensures IsRun(w, run) && IsUndisturbedRun(run)
    ensures var newest := NewestOf(w.flights[t].scope.nodes);
      End(w, run).store == w.store.(machines := PatchAll(w.store.machines, todo, newest, t, calls))
    ensures End(w, run).flights == w.flights
  {
    run := [];
    if todo != [] {
      var front, m := todo[..|todo| - 1], todo[|todo| - 1];
      run := PatchingRun(w, t, front, calls);
      if GetsPatched(m, NewestOf(w.flights[t].scope.nodes), t, calls) {
        var w1 := End(w, run);
        assert m in todo;
        Extend(w, run, PatchMachine(t, m));
        run := run + [PatchMachine(t, m)];
      }
    }
  }

  lemma {:induction false} AbortingRun(w: World, t: string, todo: seq<NodeTask>, calls: Calls)
    returns (run: seq<Action>)
    requires t in w.flights && AbortRequested(w.flights[t].scope.task)
    requires forall n :: n in todo ==> n in w.flights[t].scope.nodes
    ensures IsRun(w, run) && IsUndisturbedRun(run)
    ensures End(w, run).store == w.store.(nodeTasks := AbortRun(w.store.nodeTasks, todo, calls).nodes)
    ensures End(w, run).flights == w.flights
    decreases todo
  {
    run := [];
    if todo != [] && IsReadable(todo[0]) {
      if IsTerminated(StateOf(todo[0])) {
        run := AbortingRun(w, t, todo[1..], calls);
      } else if todo[0].name !in calls.abortPatches {
        var a := SendAbort(t, todo[0]);
        var rest := AbortingRun(Next(w, a), t, todo[1..], calls);
        run := [a] + rest;
        assert run[1..] == rest;
      }
    }
  }

  lemma GateIsOpen(s: Store, t: UpdateTask, copy: UpdateTask, calls: Calls)
    requires t.controlPlane == copy.controlPlane && Passes(GateSpec(s, t, calls))
    ensures GateOpen(s, copy)
  {
  }

  lemma CreatingRun(w: World, t: string, t1: UpdateTask, calls: Calls) returns (run: seq<Action>)
    requires t in w.flights && !w.flights[t].created && w.flights[t].scope.task.name == t
    requires !AbortRequested(w.flights[t].scope.task) && w.flights[t].scope.task.phase.Update?
    requires t1 == w.flights[t].scope.task.(state := t1.state)
    ensures IsRun(w, run) && IsUndisturbedRun(run)
    ensures End(w, run).store == NormalWork(w.store, w.flights[t].scope, t1, calls).store
    ensures Flying(w, End(w, run), t, w.flights[t].scope)
  {
    run := [];
    var scope := w.flights[t].scope;
    if NormalWork(w.store, scope, t1, calls).store != w.store {
      GateIsOpen(w.store, t1, scope.task, calls);
      var w1 := Next(w, PassGate(t));
      assert CreateWork(w.store, scope.machines, NewestOf(scope.nodes).Keys, t1, calls).store != w.store;
      var m := Target(scope).value;
      assert Create(w.store, t1, m.name, calls).ok;
      var a := CreateNode(t, calls.generated);
      assert NodeFor(w1, w1.flights[t], calls.generated) ==
             NewNodeTask(t1, m.name, w.store.templates[t1.templateRef], calls.generated);
      OneStep(w1, a);
      run := [PassGate(t), a];
      assert run[1..] == [a];
    }
  }

  lemma BodyRun(w: World, t: string, calls: Calls) returns (run: seq<Action>)
    requires t in w.flights && !w.flights[t].created && w.flights[t].scope.task.name == t
    requires AllReadable(w.flights[t].scope.nodes)
    ensures IsRun(w, run) && IsUndisturbedRun(run)
    ensures End(w, run).store == ScopedWork(w.store, w.flights[t].scope, calls).store
    ensures Flying(w, End(w, run), t, w.flights[t].scope)
  {
    var scope := w.flights[t].scope;
    SortedMembers(scope.machines);
    run := PatchingRun(w, t, SortedByCreation(scope.machines), calls);
    var w1 := End(w, run);
    var t1 := scope.task.(state := StatusState(scope));
    var more: seq<Action> := [];
    if AbortRequested(t1) {
      more := AbortingRun(w1, t, scope.nodes, calls);
    } else if t1.phase.Update? {
      more := CreatingRun(w1, t, t1, calls);
    }
    RunConcat(w, run, more);
    run := run + more;
  }

  // What the body leaves of the task in memory: its new state, and possibly its labels marked.
  lemma BodyTask(s: Store, scope: Scope, calls: Calls) returns (marked: bool)
    requires AllReadable(scope.nodes)
    ensures var t1 := scope.task.(state := StatusState(scope));
      ScopedWork(s, scope, calls).task == if marked then MarkTask(t1) else t1
  {
    var t1 := scope.task.(state := StatusState(scope));
    marked := ScopedWork(s, scope, calls).task != t1;
  }

  lemma FinishingStep(w: World, t: string, work: Work, marked: bool, calls: Calls) returns (run: seq<Action>)
    requires t in w.flights && t in w.store.tasks && AllReadable(w.flights[t].scope.nodes)
    requires w.store.tasks[t] == w.flights[t].scope.task && w.store.tasks[t].finalizer && w.store.tasks[t].name == t
    requires work.store == w.store
    requires var t1 := w.flights[t].scope.task.(state := StatusState(w.flights[t].scope));
      work.task == if marked then MarkTask(t1) else t1
    ensures IsRun(w, run) && IsUndisturbedRun(run)
    ensures End(w, run).store == Deferred(work, calls).store
    ensures End(w, run).flights == w.flights - {t}
  {
    if calls.patchTask {
      OneStep(w, Drop(t));
      run := [Drop(t)];
    } else {
      SavedTask(w.flights[t].scope, work, marked);
      OneStep(w, Finish(t, marked));
      run := [Finish(t, marked)];
    }
  }

  // What the deferred function saves is the stored task with the differences applied.
  lemma SavedTask(scope: Scope, work: Work, marked: bool)
    requires AllReadable(scope.nodes) && scope.task.finalizer
    requires var t1 := scope.task.(state := StatusState(scope)); work.task == if marked then MarkTask(t1) else t1
    ensures FinishedTask(scope.task, scope, marked) ==
            if IsTerminated(work.task.state) then work.task.(finalizer := false) else work.task
  {
  }

  lemma FlightRun(w: World, t: string, calls: Calls) returns (run: seq<Action>)
    requires t in w.flights && !w.flights[t].created && AllReadable(w.flights[t].scope.nodes)
    requires t in w.store.tasks && w.store.tasks[t] == w.flights[t].scope.task
    requires w.store.tasks[t].finalizer && w.store.tasks[t].name == t
    ensures IsRun(w, run) && IsUndisturbedRun(run)
    ensures End(w, run).store == Deferred(ScopedWork(w.store, w.flights[t].scope, calls), calls).store
    ensures End(w, run).flights == w.flights - {t}
  {
    var scope := w.flights[t].scope;
    var body := BodyRun(w, t, calls);
    var marked := BodyTask(w.store, scope, calls);
    var last := FinishingStep(End(w, body), t, ScopedWork(w.store, scope, calls), marked, calls);
    RunConcat(w, body, last);
    run := body + last;
  }

  // Without a scope, or with a node task that cannot be read, a reconcile changes nothing.
  lemma NothingLoaded(s: Store, task: UpdateTask, calls: Calls)
    requires task.name in s.tasks && s.tasks[task.name] == task && task.finalizer && !IsTerminated(task.state)
    requires NewScope(s, task, calls).None? || !AllReadable(ScopeFor(s, task).nodes)
    ensures Deferred(LoadedWork(s, task, calls), calls).store == s
  {
    assert s.tasks[task.name := task] == s.tasks;
  }

  lemma BeginStep(w: World, t: string)
    requires Enabled(w, Begin(t))
    ensures Next(w, Begin(t)).store == w.store && t in Next(w, Begin(t)).flights
    ensures Next(w, Begin(t)).flights[t] == Flight(ScopeFor(w.store, w.store.tasks[t]), false, false)
    ensures Next(w, Begin(t)).flights - {t} == w.flights
  {
  }

  lemma WholeFlight(w: World, t: string, calls: Calls) returns (run: seq<Action>)
    requires Enabled(w, Begin(t)) && w.store.tasks[t].name == t
    ensures IsRun(w, run) && IsUndisturbedRun(run)
    ensures End(w, run).store == Deferred(ScopedWork(w.store, ScopeFor(w.store, w.store.tasks[t]), calls), calls).store
    ensures End(w, run).flights == w.flights
  {
    BeginStep(w, t);
    var rest := FlightRun(Next(w, Begin(t)), t, calls);
    run := [Begin(t)] + rest;
    assert run[1..] == rest;
  }

  lemma LoadedRun(w: World, t: string, calls: Calls) returns (run: seq<Action>)
    requires TasksOk(w) && t in w.store.tasks && t !in w.flights && w.store.tasks[t].finalizer
    ensures IsRun(w, run) && IsUndisturbedRun(run)
    ensures End(w, run).store == Deferred(LoadedWork(w.store, w.store.tasks[t], calls), calls).store
    ensures End(w, run).flights == w.flights
  {
    var task := w.store.tasks[t];
    if NewScope(w.store, task, calls).None? || !AllReadable(ScopeFor(w.store, task).nodes) {
      run := [];
      NothingLoaded(w.store, task, calls);
    } else {
      run := WholeFlight(w, t, calls);
    }
  }

  /** Every reconcile, whatever calls of it fail, changes the store as some run of the protocol does. */
  lemma ReconcileIsRun(w: World, t: string, calls: Calls) returns (run: seq<Action>)
    requires TasksOk(w) && t !in w.flights
    ensures IsRun(w, run) && IsUndisturbedRun(run)
    ensures End(w, run).store == Reconciled(w.store, t, calls).store
    ensures End(w, run).flights == w.flights
  {
    run := [];
    if !calls.getTask && t in w.store.tasks && !calls.taskHelper {
      var task := w.store.tasks[t];
      if task.finalizer {
        run := LoadedRun(w, t, calls);
      } else if IsTerminated(task.state) {
        assert w.store.tasks[t := task] == w.store.tasks;
        assert task.(finalizer := true).(finalizer := false) == task;
      } else if !calls.patchTask {
        OneStep(w, AddFinalizer(t));
        run := [AddFinalizer(t)];
      }
    }
  }

  /** So the invariant of the protocol is an invariant of the controller: every reconcile keeps at most one
      node task of every update task outside Updated and Aborted, and one per machine. */
  lemma ReconcileKeepsInv(s: Store, t: string, calls: Calls)
    requires Inv(Initial(s))
    ensures Inv(Initial(Reconciled(s, t, calls).store))
  {
    var w := Initial(s);
    var run := ReconcileIsRun(w, t, calls);
    InvRun(w, run);
    var w' := End(w, run);
    assert Initial(Reconciled(s, t, calls).store) == w'.(requests := map[], log := []);
    assert Inv(w'.(requests := map[], log := []));
  }
}
