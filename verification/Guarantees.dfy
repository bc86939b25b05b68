/** Guarantees over runs that start anywhere the invariant holds: terminal states, the states a task goes
    through, aborts, and the hand-over from one task to the next. */
module Guarantees {
  import opened UpdateTypes
  import opened Objects
  import opened Nodes
  import opened Scopes
  import opened Rollout
  import opened RolloutFacts
  import opened Protocol
  import opened Invariants

  /** What a run adds to the log. */
  ghost function NewEvents(w: World, run: seq<Action>): (r: seq<Event>)
    requires IsRun(w, run)
    ensures End(w, run).log == w.log + r
    decreases run
  {
    if run == [] then []
    else
      var rest := NewEvents(Next(w, run[0]), run[1..]);
      Associates(w.log, StepEvents(w, run[0]), rest);
      StepEvents(w, run[0]) + rest
  }

  lemma Associates(a: seq<Event>, b: seq<Event>, c: seq<Event>)
    ensures (a + b) + c == a + (b + c)
  {
  }

  /******* Terminal states are absorbing *******/

  predicate IsFinished(w: World, t: string) {
    t in w.store.tasks && IsTerminated(w.store.tasks[t].state)
  }

  lemma FinishedNotInFlight(w: World, t: string)
    requires FlightsOk(w) && IsFinished(w, t)
    ensures t !in w.flights
  {
    assert t in w.flights ==> FlightOk(w, t);
  }

  lemma FinishedStep(w: World, a: Action, t: string)
    requires Enabled(w, a) && IsFinished(w, t) && t !in w.flights
    ensures t in NextTasks(w, a) && NextTasks(w, a)[t].state == w.store.tasks[t].state
  {
  }

  lemma FinishedEvents(w: World, a: Action, t: string)
    requires Enabled(w, a) && t !in w.flights
    ensures forall e :: e in StepEvents(w, a) ==> e.task != t
  {
  }

  /** Once a task is terminated it stays so for ever, holds no finalizer, is never worked on again, and no
      reconcile of it creates or aborts a node task or patches a machine, whatever happens to its phase, to
      machines or to node tasks. */
  lemma {:induction false} TerminatedForEver(w: World, run: seq<Action>, t: string)
    requires Inv(w) && IsRun(w, run) && IsFinished(w, t)
    ensures var w' := End(w, run);
      && t in w'.store.tasks && w'.store.tasks[t].state == w.store.tasks[t].state
      && !w'.store.tasks[t].finalizer && t !in w'.flights
    ensures forall e :: e in NewEvents(w, run) ==> e.task != t
    decreases run
  {
    FinishedNotInFlight(w, t);
    if run != [] {
      FinishedStep(w, run[0], t);
      FinishedEvents(w, run[0], t);
      InvStep(w, run[0]);
      TerminatedForEver(Next(w, run[0]), run[1..], t);
    }
  }

  /******* The states of a task *******/

  predicate MovesTo(a: State, b: State) {
    || a == b
    || (a.Unknown? && (b.InProgress? || b.Updated? || b.Aborted?))
    || (a.InProgress? && (b.Updated? || b.Aborted?))
  }

  lemma StateStep(w: World, a: Action, t: string)
    requires TasksOk(w) && FlightsOk(w) && Enabled(w, a) && t in w.store.tasks
    ensures t in NextTasks(w, a) && MovesTo(w.store.tasks[t].state, NextTasks(w, a)[t].state)
  {
    if a.Finish? && a.task == t {
      assert FlightOk(w, t);
      FinishMoves(w, t, a.marked);
    } else {
      KeepsState(w, a, t);
    }
  }

  lemma FinishMoves(w: World, t: string, marked: bool)
    requires Enabled(w, Finish(t, marked))
    requires StateReachable(w.store.tasks[t].state) && !IsTerminated(w.store.tasks[t].state)
    ensures t in NextTasks(w, Finish(t, marked))
    ensures MovesTo(w.store.tasks[t].state, NextTasks(w, Finish(t, marked))[t].state)
  {
  }

  lemma KeepsState(w: World, a: Action, t: string)
    requires Enabled(w, a) && t in w.store.tasks && !(a.Finish? && a.task == t)
    ensures t in NextTasks(w, a) && NextTasks(w, a)[t].state == w.store.tasks[t].state
  {
  }

  /** A task goes from the empty state through InProgress to Updated or Aborted: never back, never Failed. */
  lemma {:induction false} StateMachine(w: World, run: seq<Action>, t: string)
    requires Inv(w) && IsRun(w, run) && t in w.store.tasks
    ensures t in End(w, run).store.tasks
    ensures MovesTo(w.store.tasks[t].state, End(w, run).store.tasks[t].state)
    ensures StateReachable(End(w, run).store.tasks[t].state)
    decreases run
  {
    if run != [] {
      StateStep(w, run[0], t);
      InvStep(w, run[0]);
      StateMachine(Next(w, run[0]), run[1..], t);
    }
  }

  /******* Aborts *******/

  // Nobody takes the abort request back.
  predicate KeepsAbort(run: seq<Action>, t: string) {
    forall a :: a in run && a.Environment? && a.env.SetPhase? && a.env.task == t ==> a.env.phase.Abort?
  }

  predicate TaskAborting(tasks: map<string, UpdateTask>, t: string) {
    t in tasks && AbortRequested(tasks[t])
  }

  predicate FlightAborting(flights: map<string, Flight>, t: string) {
    t in flights ==> AbortRequested(flights[t].scope.task)
  }

  predicate IsAborting(w: World, t: string) {
    TaskAborting(w.store.tasks, t) && FlightAborting(w.flights, t)
  }

  lemma TaskAbortingStep(w: World, a: Action, t: string)
    requires Enabled(w, a) && TaskAborting(w.store.tasks, t)
    requires a.Environment? && a.env.SetPhase? && a.env.task == t ==> a.env.phase.Abort?
    ensures TaskAborting(NextTasks(w, a), t)
  {
  }

  lemma FlightAbortingStep(w: World, a: Action, t: string)
    requires FlightsOk(w) && Enabled(w, a) && IsAborting(w, t)
    ensures FlightAborting(NextFlights(w, a), t)
    ensures forall e :: e in StepEvents(w, a) ==> !(e.Created? && e.task == t)
  {
    assert t in w.flights ==> FlightOk(w, t);
  }

  /** No reconcile that starts after an abort request creates a node task while the request stays in force. */
  lemma {:induction false} NothingCreatedAfterAbort(w: World, run: seq<Action>, t: string)
    requires Inv(w) && IsRun(w, run) && IsAborting(w, t) && KeepsAbort(run, t)
    ensures IsAborting(End(w, run), t)
    ensures forall e :: e in NewEvents(w, run) ==> !(e.Created? && e.task == t)
    decreases run
  {
    if run != [] {
      assert forall a :: a in run[1..] ==> a in run;
      TaskAbortingStep(w, run[0], t);
      FlightAbortingStep(w, run[0], t);
      InvStep(w, run[0]);
      NothingCreatedAfterAbort(Next(w, run[0]), run[1..], t);
    }
  }

  // The node tasks of all update tasks can be read.
  ghost predicate Readable(w: World) {
    forall t :: t in w.store.tasks ==> AllReadable(Mine(w.store, t))
  }

  lemma LaterReadable(a: seq<NodeTask>, b: seq<NodeTask>)
    requires Later(a, b) && AllReadable(a)
    ensures AllReadable(b)
  {
    forall n | n in b ensures IsReadable(n) {
      var i :| 0 <= i < |b| && b[i] == n;
      assert Evolves(a[i], b[i]) && a[i] in a;
    }
  }

  lemma ReadableStep(w: World, a: Action)
    requires Inv(w) && Readable(w) && Enabled(w, a)
    ensures Readable(Next(w, a))
  {
    forall t | t in Next(w, a).store.tasks ensures AllReadable(Mine(Next(w, a).store, t)) {
      if t !in w.store.tasks {
        AddedHasNone(w, a, t);
      } else {
        MineStaysReadable(w, a, t);
      }
    }
  }

  lemma MineStaysReadable(w: World, a: Action, t: string)
    requires Inv(w) && Enabled(w, a) && t in w.store.tasks && AllReadable(Mine(w.store, t))
    ensures t in Next(w, a).store.tasks && AllReadable(Mine(Next(w, a).store, t))
  {
    if CreatesFor(a, t) {
      var k := MineGrows(w, a, t);
      InsertReadable(Mine(w.store, t), k, NodeFor(w, w.flights[t], a.generated));
    } else {
      MineEvolves(w, a, t);
      LaterReadable(Mine(w.store, t), Mine(Next(w, a).store, t));
    }
  }

  lemma InsertReadable(ns: seq<NodeTask>, k: nat, n: NodeTask)
    requires AllReadable(ns) && IsReadable(n)
    ensures AllReadable(Insert(ns, k, n))
  {
    assert forall x :: x in Insert(ns, k, n) ==> x in ns || x == n;
  }

  lemma {:induction false} ReadableRun(w: World, run: seq<Action>)
    requires Inv(w) && Readable(w) && IsRun(w, run)
    ensures Readable(End(w, run))
    decreases run
  {
    if run != [] {
      ReadableStep(w, run[0]);
      InvStep(w, run[0]);
      ReadableRun(Next(w, run[0]), run[1..]);
    }
  }

  /** In every reachable state of an aborted task a reconcile can read all node tasks; it reports Aborted if
      and only if no node task of a selected machine is running; and when it does, it sends abort patches only
      to node tasks of machines that are no longer selected or in an undeclared state. */
  lemma AbortedIsSound(s: Store, run: seq<Action>, t: string, calls: Calls)
    requires IsFreshStore(s) && IsRun(Initial(s), run) && TaskAborting(End(Initial(s), run).store.tasks, t)
    ensures var s' := End(Initial(s), run).store;
      var scope := ScopeFor(s', s'.tasks[t]);
      && AllReadable(scope.nodes)
      && (StatusState(scope) == Aborted <==>
            forall n :: n in scope.nodes && IsOnSelected(scope, n) ==> !IsNodeRunning(n))
      && (StatusState(scope) == Aborted ==>
            OnlyStrays(scope, s'.nodeTasks, ScopedWork(s', scope, calls).store.nodeTasks))
  {
    FreshStoreInv(s);
    InvRun(Initial(s), run);
    ReadableRun(Initial(s), run);
    var s' := End(Initial(s), run).store;
    AbortedWaitsForSelected(ScopeFor(s', s'.tasks[t]));
    if StatusState(ScopeFor(s', s'.tasks[t])) == Aborted {
      AbortedIsQuiet(s', s'.tasks[t], calls);
    }
  }

  /******* Updated *******/

  /** In every reachable state of a task that is not aborted a reconcile can read all node tasks, and it reports
      Updated if and only if every node task of a selected machine is Updated and every selected machine in scope
      has one: node tasks of machines that are gone are ignored, failed and running ones included. */
  lemma UpdatedIsSound(s: Store, run: seq<Action>, t: string)
    requires IsFreshStore(s) && IsRun(Initial(s), run) && t in End(Initial(s), run).store.tasks
    requires !TaskAborting(End(Initial(s), run).store.tasks, t)
    ensures var s' := End(Initial(s), run).store;
      && AllReadable(Mine(s', t))
      && (StatusState(ScopeFor(s', s'.tasks[t])) == Updated <==> IsAllDone(ScopeFor(s', s'.tasks[t])))
  {
    FreshStoreInv(s);
    InvRun(Initial(s), run);
    ReadableRun(Initial(s), run);
    var scope := ScopeFor(End(Initial(s), run).store, End(Initial(s), run).store.tasks[t]);
    UpdatedIsExact(scope);
    DoneExact(scope);
  }

  /******* Failed node tasks *******/

  predicate HasFailed(ns: seq<NodeTask>) {
    exists n :: n in ns && StateOf(n).Failed?
  }

  lemma FailedStays(a: seq<NodeTask>, b: seq<NodeTask>)
    requires Later(a, b) && HasFailed(a)
    ensures HasFailed(b)
  {
    var i :| 0 <= i < |a| && StateOf(a[i]).Failed?;
    assert Evolves(a[i], b[i]) && b[i] in b;
  }

  lemma FailedStep(w: World, a: Action, t: string)
    requires Inv(w) && t in w.store.tasks && HasFailed(Mine(w.store, t)) && Enabled(w, a)
    ensures !CreatesFor(a, t)
    ensures t in Next(w, a).store.tasks && Later(Mine(w.store, t), Mine(Next(w, a).store, t))
  {
    if CreatesFor(a, t) {
      CreationIsSafe(w, t, a.generated);
    }
    MineEvolves(w, a, t);
  }

  lemma OthersCreate(w: World, a: Action, t: string)
    requires Enabled(w, a) && !CreatesFor(a, t)
    ensures forall e :: e in StepEvents(w, a) ==> !(e.Created? && e.task == t)
  {
  }

  /** A failed node task blocks its rollout for ever, also when its machine is remediated or removed: no run ever
      creates another node task for the task. */
  lemma {:induction false} FailedBlocks(w: World, run: seq<Action>, t: string)
    requires Inv(w) && t in w.store.tasks && HasFailed(Mine(w.store, t)) && IsRun(w, run)
    ensures forall e :: e in NewEvents(w, run) ==> !(e.Created? && e.task == t)
    ensures t in End(w, run).store.tasks && Later(Mine(w.store, t), Mine(End(w, run).store, t))
    decreases run
  {
    if run == [] {
      LaterSame(Mine(w.store, t));
    } else {
      var w' := Next(w, run[0]);
      FailedStep(w, run[0], t);
      FailedStays(Mine(w.store, t), Mine(w'.store, t));
      OthersCreate(w, run[0], t);
      InvStep(w, run[0]);
      FailedBlocks(w', run[1..], t);
      LaterTransitive(Mine(w.store, t), Mine(w'.store, t), Mine(End(w, run).store, t));
    }
  }

  /******* Hand-over *******/

  predicate NoneInScope(ms: seq<Machine>, t: string, machineName: string) {
    forall m :: m in ms && m.name == machineName ==> !IsMachineInUpdateScope(m, t)
  }

  // No machine of this name is in the scope of the task, in the store or in the eyes of a reconcile of it.
  predicate IsReleased(w: World, t: string, machineName: string) {
    && t in w.store.tasks
    && NoneInScope(w.store.machines, t, machineName)
    && (t in w.flights ==> NoneInScope(w.flights[t].scope.machines, t, machineName))
  }

  lemma ReleasedMachines(w: World, a: Action, t: string, machineName: string)
    requires Enabled(w, a) && IsReleased(w, t, machineName)
    ensures NoneInScope(NextMachines(w, a), t, machineName)
  {
    forall m | m in NextMachines(w, a) && m.name == machineName ensures !IsMachineInUpdateScope(m, t) {
      var ms, ms' := w.store.machines, NextMachines(w, a);
      var i :| 0 <= i < |ms'| && ms'[i] == m;
      if a.Environment? && a.env.LeaveMachine? {
        assert m in ms;
      } else if a.Environment? && a.env.JoinMachine? {
        assert i < |ms| ==> m in ms;
      } else {
        assert ms[i] in ms && ms[i].name == m.name;
      }
    }
  }

  lemma ReleasedFlights(w: World, a: Action, t: string, machineName: string)
    requires Enabled(w, a) && IsReleased(w, t, machineName)
    ensures t in NextFlights(w, a) ==> NoneInScope(NextFlights(w, a)[t].scope.machines, t, machineName)
  {
  }

  lemma ReleasedEvents(w: World, a: Action, t: string, machineName: string)
    requires FlightsOk(w) && Enabled(w, a) && IsReleased(w, t, machineName)
    ensures Created(t, machineName) !in StepEvents(w, a) && Patched(t, machineName) !in StepEvents(w, a)
  {
    if CreatesFor(a, t) {
      assert FlightOk(w, t);
      TargetHasNoNode(w.flights[t].scope);
    }
  }

  lemma {:induction false} ReleasedForEver(w: World, run: seq<Action>, t: string, machineName: string)
    requires Inv(w) && IsRun(w, run) && IsReleased(w, t, machineName)
    ensures IsReleased(End(w, run), t, machineName)
    ensures Created(t, machineName) !in NewEvents(w, run) && Patched(t, machineName) !in NewEvents(w, run)
    decreases run
  {
    if run != [] {
      ReleasedMachines(w, run[0], t, machineName);
      ReleasedFlights(w, run[0], t, machineName);
      ReleasedEvents(w, run[0], t, machineName);
      KeyStep(w, run[0], t);
      InvStep(w, run[0]);
      ReleasedForEver(Next(w, run[0]), run[1..], t, machineName);
    }
  }
}
