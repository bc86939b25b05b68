/** What MachineUpToDate means: a machine in the scope of a task that is reported up to date has been
    updated by that task. Two steps can break this, and no other: a report that lands after the handler has
    handed the machine on, and an annotation whose machine was listed before a report landed. */
module MachineCondition {
  import opened Objects
  import opened Nodes
  import opened Status
  import opened Rollout
  import opened Protocol
  import opened Invariants
  import opened Completion
  import opened Refinement
  import opened Handlers
  import opened HandOver

  ghost predicate ConditionsTrue(s: Store) {
    forall m :: m in s.machines && m.upToDate.IsUpToDate? && ScopeOf(m).Some? ==>
      WasUpdated(s, ScopeOf(m).value, m.name)
  }

  /******* The exact condition, step by step *******/

  // The machine is in no scope, or in that of a task that is this one or has updated it.
  ghost predicate MayReport(s: Store, x: Machine, t: string) {
    ScopeOf(x).None? || IsMachineInUpdateScope(x, t) || WasUpdated(s, ScopeOf(x).value, x.name)
  }

  /** A report of task t takes effect only on a machine that has not been handed to a task that has yet to
      update it, and the handler annotates only machines it has listed as up to date if they are. */
  ghost predicate KeepsTrue(w: World, a: Action)
    requires Enabled(w, a)
  {
    match a
    case PatchMachine(t, m) =>
      ConditionFor(m, NewestOf(w.flights[t].scope.nodes)).IsUpToDate? ==>
        forall x :: x in w.store.machines && x.name == m.name && x.upToDate == m.upToDate ==> MayReport(w.store, x, t)
    case Environment(Annotate(_, m)) =>
      forall x :: x in w.store.machines && x.name == m.name && x.upToDate.IsUpToDate? ==> m.upToDate.IsUpToDate?
    case _ => true
  }

  // A flight that reports True has seen an Updated node task, and that is still there.
  lemma TrueIsEarned(w: World, t: string, m: Machine)
    requires FlightsOk(w) && Synced(w) && Enabled(w, PatchMachine(t, m))
    requires ConditionFor(m, NewestOf(w.flights[t].scope.nodes)).IsUpToDate?
    ensures WasUpdated(w.store, t, m.name)
  {
    assert FlightOk(w, t);
    NewestHasUpdated(w.flights[t].scope.nodes, m);
    LaterHasUpdated(w.flights[t].scope.nodes, Mine(w.store, t), m.name);
  }

  // Steps that change the condition or the scope of some machine.
  predicate TouchesMachines(a: Action) {
    a.PatchMachine? || (a.Environment? && a.env.Annotate?)
  }

  lemma MachineOrigin(w: World, a: Action, m: Machine) returns (x: Machine)
    requires Enabled(w, a) && !TouchesMachines(a) && m in NextMachines(w, a)
    requires m.upToDate.IsUpToDate? && ScopeOf(m).Some?
    ensures x in w.store.machines && x.name == m.name && ScopeOf(x) == ScopeOf(m) && x.upToDate == m.upToDate
  {
    var ms, ms' := w.store.machines, NextMachines(w, a);
    var i :| 0 <= i < |ms'| && ms'[i] == m;
    if a.Environment? && a.env.LeaveMachine? && i >= a.env.index {
      x := ms[i + 1];
    } else {
      x := ms[i];
    }
  }

  lemma AnnotateBackward(w: World, newTask: string, listed: Machine, m: Machine)
    requires Enabled(w, Environment(Annotate(newTask, listed))) && KeepsTrue(w, Environment(Annotate(newTask, listed)))
    requires ConditionsTrue(w.store) && m in AnnotateListed(w.store.machines, listed, newTask)
    requires m.upToDate.IsUpToDate? && ScopeOf(m).Some?
    ensures WasUpdated(w.store, ScopeOf(m).value, m.name)
  {
    var i :| 0 <= i < |w.store.machines| && AnnotateListed(w.store.machines, listed, newTask)[i] == m;
    var x := w.store.machines[i];
    assert x in w.store.machines;
    assert x.name != listed.name;
  }

  lemma PatchBackward(w: World, t: string, seen: Machine, m: Machine)
    requires FlightsOk(w) && Synced(w) && Enabled(w, PatchMachine(t, seen)) && KeepsTrue(w, PatchMachine(t, seen))
    requires ConditionsTrue(w.store) && m in NextMachines(w, PatchMachine(t, seen))
    requires m.upToDate.IsUpToDate? && ScopeOf(m).Some?
    ensures WasUpdated(w.store, ScopeOf(m).value, m.name)
  {
    var x := PatchedFrom(w.store.machines, seen, ConditionFor(seen, NewestOf(w.flights[t].scope.nodes)), m);
    if !x.upToDate.IsUpToDate? {
      TrueIsEarned(w, t, seen);
    }
  }

  lemma PatchedFrom(ms: seq<Machine>, seen: Machine, wanted: UpToDate, m: Machine) returns (x: Machine)
    requires m in PatchUpToDate(ms, seen, wanted) && m.upToDate.IsUpToDate?
    ensures x in ms && x.name == m.name && ScopeOf(x) == ScopeOf(m)
    ensures x.upToDate.IsUpToDate? || (x.name == seen.name && x.upToDate == seen.upToDate && wanted.IsUpToDate?)
  {
    var i :| 0 <= i < |ms| && PatchUpToDate(ms, seen, wanted)[i] == m;
    x := ms[i];
  }

  // Why a machine is up to date after a step: it was before, or this step earned it.
  lemma ConditionOrigin(w: World, a: Action, m: Machine)
    requires FlightsOk(w) && Synced(w) && ConditionsTrue(w.store) && Enabled(w, a) && KeepsTrue(w, a)
    requires m in NextMachines(w, a) && m.upToDate.IsUpToDate? && ScopeOf(m).Some?
    ensures WasUpdated(w.store, ScopeOf(m).value, m.name)
  {
    if a.PatchMachine? {
      PatchBackward(w, a.task, a.machine, m);
    } else if TouchesMachines(a) {
      AnnotateBackward(w, a.env.newName, a.env.listed, m);
    } else {
      var x := MachineOrigin(w, a, m);
    }
  }

  // A report that lands on a machine already handed to a task that has not updated it.
  lemma LateReport(w: World, t: string, m: Machine, x: Machine)
    requires Enabled(w, PatchMachine(t, m)) && ConditionFor(m, NewestOf(w.flights[t].scope.nodes)).IsUpToDate?
    requires x in w.store.machines && x.name == m.name && x.upToDate == m.upToDate && !MayReport(w.store, x, t)
    ensures !ConditionsTrue(Next(w, PatchMachine(t, m)).store)
  {
    var i :| 0 <= i < |w.store.machines| && w.store.machines[i] == x;
    var m' := NextMachines(w, PatchMachine(t, m))[i];
    assert m' in NextMachines(w, PatchMachine(t, m));
    assert Next(w, PatchMachine(t, m)).store == w.store.(machines := NextMachines(w, PatchMachine(t, m)));
  }

  // An annotation computed from a copy that was listed before the machine was reported up to date.
  lemma StaleAnnotation(w: World, newTask: string, listed: Machine, x: Machine)
    requires Enabled(w, Environment(Annotate(newTask, listed)))
    requires x in w.store.machines && x.name == listed.name && x.upToDate.IsUpToDate? && !listed.upToDate.IsUpToDate?
    ensures !ConditionsTrue(Next(w, Environment(Annotate(newTask, listed))).store)
  {
    var i :| 0 <= i < |w.store.machines| && w.store.machines[i] == x;
    var w' := Next(w, Environment(Annotate(newTask, listed)));
    assert w'.store.machines[i] == Annotated(x, listed, newTask) && w'.store.machines[i] in w'.store.machines;
    assert newTask !in w'.store.tasks;
  }

  /** Exactly these steps keep: a machine in scope that is up to date has an Updated node task of its task. */
  lemma ConditionStep(w: World, a: Action)
    requires Inv(w) && ConditionsTrue(w.store) && Enabled(w, a)
    ensures ConditionsTrue(Next(w, a).store) <==> KeepsTrue(w, a)
  {
    if KeepsTrue(w, a) {
      forall m | m in Next(w, a).store.machines && m.upToDate.IsUpToDate? && ScopeOf(m).Some?
        ensures WasUpdated(Next(w, a).store, ScopeOf(m).value, m.name)
      {
        ConditionOrigin(w, a, m);
        UpdatedStays(w, a, ScopeOf(m).value, m.name);
      }
    } else if a.PatchMachine? {
      var x :| x in w.store.machines && x.name == a.machine.name && x.upToDate == a.machine.upToDate &&
               !MayReport(w.store, x, a.task);
      LateReport(w, a.task, a.machine, x);
    } else {
      var x :| x in w.store.machines && x.name == a.env.listed.name && x.upToDate.IsUpToDate? &&
               !a.env.listed.upToDate.IsUpToDate?;
      StaleAnnotation(w, a.env.newName, a.env.listed, x);
    }
  }

  // The condition is true now and after every step of the run.
  ghost predicate AlwaysTrue(w: World, run: seq<Action>)
    requires IsRun(w, run)
    decreases run
  {
    ConditionsTrue(w.store) && (run == [] || AlwaysTrue(Next(w, run[0]), run[1..]))
  }

  ghost predicate EveryStepKeeps(w: World, run: seq<Action>)
    requires IsRun(w, run)
    decreases run
  {
    run == [] || (KeepsTrue(w, run[0]) && EveryStepKeeps(Next(w, run[0]), run[1..]))
  }

  /** The condition is true throughout a run if and only if no report lands late and no annotation is stale. */
  lemma {:induction false} UpToDateIsExact(w: World, run: seq<Action>)
    requires Inv(w) && ConditionsTrue(w.store) && IsRun(w, run)
    ensures AlwaysTrue(w, run) <==> EveryStepKeeps(w, run)
    decreases run
  {
    if run != [] {
      ConditionStep(w, run[0]);
      if KeepsTrue(w, run[0]) {
        InvStep(w, run[0]);
        UpToDateIsExact(Next(w, run[0]), run[1..]);
      }
    }
  }

  /******* Requests and reconciles that do not overlap on a machine *******/

  // Reconciles see the scopes of their machines as they are.
  predicate ScopesCurrent(w: World) {
    forall t, m, x | t in w.flights && m in w.flights[t].scope.machines && IsMachineInUpdateScope(m, t) &&
                     x in w.store.machines && x.name == m.name ::
      ScopeOf(x).None? || IsMachineInUpdateScope(x, t)
  }

  // Requests see the conditions of their machines as they are, as far as a machine is up to date.
  predicate ListingsCurrent(w: World) {
    forall r, m, x | r in w.requests && m in w.requests[r] && x in w.store.machines && x.name == m.name ::
      x.upToDate.IsUpToDate? ==> m.upToDate.IsUpToDate?
  }

  // The handler annotates a machine only while no reconcile works on it.
  predicate HandlerWaits(w: World, a: Action) {
    a.Environment? && a.env.Annotate? ==>
      forall t, m | t in w.flights && m in w.flights[t].scope.machines && m.name == a.env.listed.name ::
        !IsMachineInUpdateScope(m, t)
  }

  // A reconcile patches a machine only while no request has listed it and not annotated it yet.
  predicate ReconcileWaits(w: World, a: Action) {
    a.PatchMachine? ==> forall r, m | r in w.requests && m in w.requests[r] :: m.name != a.machine.name
  }

  lemma CurrentKeepsTrue(w: World, a: Action)
    requires ScopesCurrent(w) && ListingsCurrent(w) && Enabled(w, a)
    ensures KeepsTrue(w, a)
  {
  }

  lemma SameNameSameMachine(ms: seq<Machine>, m: Machine, x: Machine)
    requires DistinctNames(ms) && m in ms && x in ms && x.name == m.name
    ensures x == m
  {
    var i, j :| 0 <= i < |ms| && 0 <= j < |ms| && ms[i] == m && ms[j] == x;
  }

  // Scopes only change by annotation, and machines join without one.
  lemma ScopeOrigin(w: World, a: Action, x: Machine)
    requires Enabled(w, a) && x in NextMachines(w, a)
    ensures ScopeOf(x).None? || (a.Environment? && a.env.Annotate? && a.env.listed.name == x.name) ||
            exists y :: y in w.store.machines && y.name == x.name && ScopeOf(y) == ScopeOf(x)
  {
    var ms, ms' := w.store.machines, NextMachines(w, a);
    var i :| 0 <= i < |ms'| && ms'[i] == x;
    if a.Environment? && a.env.LeaveMachine? {
      assert x in ms;
    } else if i < |ms| {
      assert ms[i] in ms && ms[i].name == x.name;
    }
  }

  lemma ScopesStep(w: World, a: Action)
    requires Inv(w) && ScopesCurrent(w) && Enabled(w, a) && HandlerWaits(w, a)
    ensures ScopesCurrent(Next(w, a))
  {
    var w' := Next(w, a);
    forall t, m, x | t in w'.flights && m in w'.flights[t].scope.machines && IsMachineInUpdateScope(m, t) &&
                     x in w'.store.machines && x.name == m.name
      ensures ScopeOf(x).None? || IsMachineInUpdateScope(x, t)
    {
      if t in w.flights {
        FlightOrigin(w, a, t);
        ScopeStaysCurrent(w, a, t, m, x);
      } else {
        SameNameSameMachine(w.store.machines, m, x);
      }
    }
  }

  lemma ScopeStaysCurrent(w: World, a: Action, t: string, m: Machine, x: Machine)
    requires ScopesCurrent(w) && Enabled(w, a) && HandlerWaits(w, a)
    requires t in w.flights && m in w.flights[t].scope.machines && IsMachineInUpdateScope(m, t)
    requires x in NextMachines(w, a) && x.name == m.name
    ensures ScopeOf(x).None? || IsMachineInUpdateScope(x, t)
  {
    ScopeOrigin(w, a, x);
  }

  // A machine gets up to date only by a report.
  lemma ReportOrigin(w: World, a: Action, x: Machine)
    requires Enabled(w, a) && x in NextMachines(w, a) && x.upToDate.IsUpToDate?
    ensures (a.PatchMachine? && a.machine.name == x.name) ||
            exists y :: y in w.store.machines && y.name == x.name && y.upToDate.IsUpToDate?
  {
    var ms, ms' := w.store.machines, NextMachines(w, a);
    var i :| 0 <= i < |ms'| && ms'[i] == x;
    if a.Environment? && a.env.LeaveMachine? {
      assert x in ms;
    } else if i < |ms| {
      assert ms[i] in ms && ms[i].name == x.name;
    }
  }

  lemma RequestOrigin(w: World, a: Action, r: string, m: Machine)
    requires Enabled(w, a) && r in NextRequests(w, a) && m in NextRequests(w, a)[r]
    ensures (r in w.requests && m in w.requests[r]) || (m in w.store.machines && NextMachines(w, a) == w.store.machines)
  {
  }

  lemma ListingsStep(w: World, a: Action)
    requires Inv(w) && ListingsCurrent(w) && Enabled(w, a) && ReconcileWaits(w, a)
    ensures ListingsCurrent(Next(w, a))
  {
    var w' := Next(w, a);
    forall r, m, x | r in w'.requests && m in w'.requests[r] && x in w'.store.machines && x.name == m.name &&
                     x.upToDate.IsUpToDate?
      ensures m.upToDate.IsUpToDate?
    {
      RequestOrigin(w, a, r, m);
      if r in w.requests && m in w.requests[r] {
        ReportOrigin(w, a, x);
      } else {
        SameNameSameMachine(w.store.machines, m, x);
      }
    }
  }

  ghost predicate WaitsInRun(w: World, run: seq<Action>)
    requires IsRun(w, run)
    decreases run
  {
    run == [] || (HandlerWaits(w, run[0]) && ReconcileWaits(w, run[0]) && WaitsInRun(Next(w, run[0]), run[1..]))
  }

  /** So it is true throughout every run in which no request and no reconcile overlap on a machine: whenever a
      machine in the scope of a task is reported up to date, that task has an Updated node task for it. */
  lemma {:induction false} UpToDateIsTrue(w: World, run: seq<Action>)
    requires Inv(w) && ConditionsTrue(w.store) && ScopesCurrent(w) && ListingsCurrent(w)
    requires IsRun(w, run) && WaitsInRun(w, run)
    ensures AlwaysTrue(w, run) && ConditionsTrue(End(w, run).store)
    decreases run
  {
    if run != [] {
      CurrentKeepsTrue(w, run[0]);
      ConditionStep(w, run[0]);
      ScopesStep(w, run[0]);
      ListingsStep(w, run[0]);
      InvStep(w, run[0]);
      UpToDateIsTrue(Next(w, run[0]), run[1..]);
    }
  }

  /******* Reconciles and requests taken as one step *******/

  lemma {:induction false} NobodyWaits(w: World, run: seq<Action>)
    requires IsRun(w, run) && IsUndisturbedRun(run) && w.requests == map[]
    ensures WaitsInRun(w, run)
    decreases run
  {
    if run != [] {
      assert run[0] in run && forall a :: a in run[1..] ==> a in run;
      NobodyWaits(Next(w, run[0]), run[1..]);
    }
  }

  /** Taken as one step, no reconcile makes the condition of a machine false, whatever calls of it fail. */
  lemma AtomicReconcileIsTrue(s: Store, t: string, calls: Calls)
    requires Inv(Initial(s)) && ConditionsTrue(s)
    ensures ConditionsTrue(Reconciled(s, t, calls).store)
  {
    var run := ReconcileIsRun(Initial(s), t, calls);
    NobodyWaits(Initial(s), run);
    UpToDateIsTrue(Initial(s), run);
  }

  lemma {:induction false} NobodyReports(w: World, run: seq<Action>)
    requires IsRun(w, run) && IsEnvironmentRun(run) && w.flights == map[]
    ensures WaitsInRun(w, run)
    decreases run
  {
    if run != [] {
      assert run[0] in run && forall a :: a in run[1..] ==> a in run;
      NobodyReports(Next(w, run[0]), run[1..]);
    }
  }

  /** Nor does a request to the handler, which moves machines to another scope and deletes their condition. */
  lemma AtomicRequestIsTrue(s: Store, request: Request, calls: HandlerCalls)
    requires Inv(Initial(s)) && ConditionsTrue(s) && IsNewRequest(Initial(s), request, calls)
    ensures ConditionsTrue(Handled(s, request, calls).store)
  {
    var run := HandlerIsRun(Initial(s), request, calls);
    NobodyReports(Initial(s), run);
    UpToDateIsTrue(Initial(s), run);
  }
}
