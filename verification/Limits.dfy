/** Runs that show where the guarantees end. Each starts from any fresh store in which rollouts can begin. */
module Limits {
  import opened UpdateTypes
  import opened Objects
  import opened Nodes
  import opened Scopes
  import opened Status
  import opened ControlPlanes
  import opened Rollout
  import opened RolloutFacts
  import opened Protocol
  import opened Invariants
  import opened Membership
  import opened Refinement
  import opened Starts
  import opened Quorum
  import opened FleetQuorum
  import opened MachineCondition

  /******* A store to start from *******/

  const HEALTHY: map<ConditionType, ConditionStatus> :=
    map[APIServerPodHealthy := ConditionTrue, ControllerManagerPodHealthy := ConditionTrue,
        SchedulerPodHealthy := ConditionTrue]

  const PLANE := ControlPlane("cp", map[ClusterName := "c"], true, true)
  const TEMPLATE := ObjectRef("v1", "DockerNodeUpdateTemplate", "template")

  // A healthy machine of the control plane, in the scope of a task or of none.
  function Member(name: string, created: int, scope: Option<string>): Machine {
    var annotations := if scope.Some? then map[UpdateTaskAnnotation := scope.value] else map[];
    Machine(name, created, map[ClusterName := "c", ControlPlaneLabel := "", ControlPlaneName := "cp"],
            Some(annotations), false, true, HEALTHY, NotSet)
  }

  // A fresh task of the control plane.
  function PlaneTask(t: string): UpdateTask {
    UpdateTask(t, map[], "c", Some(ObjectRef("v1", KUBEADM, "cp")), None, MachineSpec("", "", ""), TEMPLATE, None,
               Update, false, false, Unknown)
  }

  predicate IsMember(m: Machine) {
    m == Member(m.name, m.created, ScopeOf(m))
  }

  function PlaneStore(ms: seq<Machine>, names: set<string>): Store {
    Store(map["c" := false], map["cp" := PLANE], ms, [], map t | t in names :: PlaneTask(t), map[TEMPLATE := map[]], [])
  }

  lemma PlaneGate(ms: seq<Machine>, names: set<string>, t: string)
    requires forall m :: m in ms ==> IsMember(m)
    ensures GateOpen(PlaneStore(ms, names), PlaneTask(t))
  {
    GateExact(PlaneStore(ms, names), PlaneTask(t), NO_FAILURES);
    forall m | m in ms ensures !m.deleting && IsHealthy(m, PLANE) {
      assert IsMember(m);
    }
  }

  // Machine m is the only one in the scope of task t.
  predicate StartsWith(ms: seq<Machine>, t: string, m: Machine) {
    m in ms && forall x :: x in ms ==> (IsMachineInUpdateScope(x, t) <==> x == m)
  }

  lemma OnlyTarget(scope: Scope, m: Machine)
    requires scope.nodes == [] && StartsWith(scope.machines, scope.task.name, m)
    ensures Target(scope) == Some(m)
  {
    SortedMembers(scope.machines);
    if Target(scope).None? {
      NoneNext(SortedByCreation(scope.machines), NewestOf([]).Keys, scope.task.name);
    } else {
      TargetHasNoNode(scope);
    }
  }

  lemma PlaneTarget(ms: seq<Machine>, names: set<string>, t: string, m: Machine)
    requires t in names && StartsWith(ms, t, m) && forall x :: x in ms ==> IsMember(x)
    ensures Target(ScopeFor(PlaneStore(ms, names), PlaneTask(t))) == Some(m)
  {
    assert IsMember(m);
    OnlyTarget(ScopeFor(PlaneStore(ms, names), PlaneTask(t)), m);
  }

  // A task whose only machine in scope is m starts with it.
  lemma PlaneStarts(ms: seq<Machine>, names: set<string>, t: string, m: Machine)
    requires DistinctNames(ms) && t in names && forall x :: x in ms ==> IsMember(x)
    requires StartsWith(ms, t, m)
    ensures CanStart(PlaneStore(ms, names), t) && FirstMachine(PlaneStore(ms, names), t) == m
  {
    PlaneGate(ms, names, t);
    PlaneTarget(ms, names, t, m);
  }

  // Such a store exists: one healthy machine of a kubeadm control plane, annotated for a fresh task.
  lemma AStart() returns (s: Store, t: string)
    ensures IsFreshStore(s) && CanStart(s, t) && FirstMachine(s, t).upToDate.NotSet?
    ensures forall name :: InRollout(s, t, name) ==> name == FirstMachine(s, t).name
  {
    t := "t";
    var m := Member("a", 0, Some(t));
    s := PlaneStore([m], {t});
    PlaneStarts([m], {t}, t, m);
  }

  /******* MachineUpToDate *******/

  // A reconcile of task t that starts now would report machine m, so far without condition, up to date.
  ghost predicate AboutToReport(w: World, t: string, m: Machine) {
    && Enabled(w, Begin(t)) && m in Selected(w.store, w.store.tasks[t])
    && IsMachineInUpdateScope(m, t) && m.upToDate.NotSet?
    && ConditionFor(m, NewestOf(Mine(w.store, t))).IsUpToDate?
  }

  lemma ListIs(w: World, newTask: string, selector: Labels)
    requires newTask !in w.store.tasks && newTask !in w.requests
    ensures Enabled(w, Environment(ListMachines(newTask, selector)))
    ensures Next(w, Environment(ListMachines(newTask, selector))) ==
            w.(requests := w.requests[newTask := set m | m in WithLabels(w.store.machines, selector)])
  {
    assert w.log + [] == w.log;
  }

  lemma AnnotateIs(w: World, newTask: string, m: Machine) returns (x: Machine)
    requires Enabled(w, Environment(Annotate(newTask, m))) && m in w.store.machines && m.upToDate.NotSet?
    ensures var w' := Next(w, Environment(Annotate(newTask, m)));
      && w'.store.tasks == w.store.tasks && w'.flights == w.flights
      && x in w'.store.machines && x.name == m.name && x.upToDate.NotSet? && ScopeOf(x) == Some(newTask)
  {
    var i :| 0 <= i < |w.store.machines| && w.store.machines[i] == m;
    x := Next(w, Environment(Annotate(newTask, m))).store.machines[i];
  }

  // And a request for a new task may list the machine now.
  ghost predicate IsDue(w: World, t: string, m: Machine, newTask: string) {
    AboutToReport(w, t, m) && m in w.store.machines && newTask !in w.store.tasks && newTask !in w.requests
  }

  function LateRun(t: string, m: Machine, newTask: string, selector: Labels): seq<Action> {
    [Begin(t)] + [Environment(ListMachines(newTask, selector))] + [Environment(Annotate(newTask, m))] +
    [PatchMachine(t, m)]
  }

  lemma BeginAndList(w: World, t: string, m: Machine, newTask: string, selector: Labels)
    requires IsDue(w, t, m, newTask) && Matches(m.labels, selector)
    ensures var run := [Begin(t)] + [Environment(ListMachines(newTask, selector))];
      && IsRun(w, run)
      && End(w, run) ==
         WithFlight(w, t).(requests := w.requests[newTask := set x | x in WithLabels(w.store.machines, selector)])
  {
    BeginIs(w, t);
    OneStep(w, Begin(t));
    ListIs(WithFlight(w, t), newTask, selector);
    Extend(w, [Begin(t)], Environment(ListMachines(newTask, selector)));
  }

  lemma BeginListAnnotate(w: World, t: string, m: Machine, newTask: string, selector: Labels) returns (x: Machine)
    requires IsDue(w, t, m, newTask) && Matches(m.labels, selector)
    ensures var run := [Begin(t)] + [Environment(ListMachines(newTask, selector))] +
                       [Environment(Annotate(newTask, m))];
      && IsRun(w, run)
      && var w' := End(w, run);
      && w'.store.tasks == w.store.tasks && w'.flights == WithFlight(w, t).flights
      && x in w'.store.machines && x.name == m.name && x.upToDate.NotSet? && ScopeOf(x) == Some(newTask)
  {
    BeginAndList(w, t, m, newTask, selector);
    var run := [Begin(t)] + [Environment(ListMachines(newTask, selector))];
    x := AnnotateIs(End(w, run), newTask, m);
    Extend(w, run, Environment(Annotate(newTask, m)));
  }

  // Whatever has become of the machine, the reconcile of a due report may send its patch.
  lemma ReportEnabled(w: World, t: string, m: Machine, w': World)
    requires AboutToReport(w, t, m) && w'.flights == WithFlight(w, t).flights
    ensures Enabled(w', PatchMachine(t, m)) && ConditionFor(m, NewestOf(w'.flights[t].scope.nodes)).IsUpToDate?
  {
  }

  /** A request that lists and annotates the machine between the snapshot and the report of a reconcile: the
      machine ends up reported up to date in the scope of a task that does not exist yet. */
  lemma LateTrueHappens(w: World, t: string, m: Machine, newTask: string, selector: Labels)
    requires IsDue(w, t, m, newTask) && Matches(m.labels, selector)
    ensures IsRun(w, LateRun(t, m, newTask, selector))
    ensures !ConditionsTrue(End(w, LateRun(t, m, newTask, selector)).store)
  {
    var x := BeginListAnnotate(w, t, m, newTask, selector);
    var run := [Begin(t)] + [Environment(ListMachines(newTask, selector))] + [Environment(Annotate(newTask, m))];
    ReportEnabled(w, t, m, End(w, run));
    LateReport(End(w, run), t, m, x);
    Extend(w, run, PatchMachine(t, m));
  }

  lemma PatchIs(w: World, t: string, m: Machine) returns (x: Machine)
    requires Enabled(w, PatchMachine(t, m)) && m in w.store.machines && m.upToDate.NotSet?
    requires ConditionFor(m, NewestOf(w.flights[t].scope.nodes)).IsUpToDate?
    ensures var w' := Next(w, PatchMachine(t, m));
      && w'.store.tasks == w.store.tasks && w'.flights == w.flights && w'.requests == w.requests
      && x in w'.store.machines && x.name == m.name && x.upToDate.IsUpToDate?
  {
    var i :| 0 <= i < |w.store.machines| && w.store.machines[i] == m;
    x := Next(w, PatchMachine(t, m)).store.machines[i];
  }

  function StaleRun(t: string, m: Machine, newTask: string, selector: Labels): seq<Action> {
    [Environment(ListMachines(newTask, selector))] + [Begin(t)] + [PatchMachine(t, m)] + [Drop(t)] +
    [Environment(Annotate(newTask, m))]
  }

  /** A whole reconcile between the listing and the annotation of a request does the same, although no
      annotation falls into a reconcile: the patch of the handler deletes only a condition it has listed. */
  lemma StaleListHappens(w: World, t: string, m: Machine, newTask: string, selector: Labels)
    requires IsDue(w, t, m, newTask) && Matches(m.labels, selector)
    ensures IsRun(w, StaleRun(t, m, newTask, selector))
    ensures !ConditionsTrue(End(w, StaleRun(t, m, newTask, selector)).store)
  {
    ListIs(w, newTask, selector);
    var run := [Environment(ListMachines(newTask, selector))];
    OneStep(w, run[0]);
    BeginIs(End(w, run), t);
    Extend(w, run, Begin(t));
    run := run + [Begin(t)];
    var x := PatchIs(End(w, run), t, m);
    Extend(w, run, PatchMachine(t, m));
    run := run + [PatchMachine(t, m)];
    DropIs(End(w, run), t);
    Extend(w, run, Drop(t));
    run := run + [Drop(t)];
    StaleAnnotation(End(w, run), newTask, m, x);
    Extend(w, run, Environment(Annotate(newTask, m)));
  }

  lemma OnlyNewest(n: NodeTask, m: Machine)
    requires IsReadable(n) && n.machineName == Some(m.name) && StateOf(n).Updated?
    ensures ConditionFor(m, NewestOf([n])).IsUpToDate?
  {
    assert Statuses([n]) == [StatusOf(n)];
    NewestHas(Statuses([n]), StatusOf(n));
    var k := NewestAt(Statuses([n]), m.name);
  }

  lemma FirstMachineStored(s: Store, t: string) returns (k: nat)
    requires CanStart(s, t)
    ensures k < |s.machines| && s.machines[k] == FirstMachine(s, t)
    ensures FirstMachine(s, t) in Selected(s, s.tasks[t]) && IsMachineInUpdateScope(FirstMachine(s, t), t)
  {
    HeldScope(s, t);
    TargetHasNoNode(ScopeFor(s, s.tasks[t]));
    assert FirstMachine(s, t) in s.machines;
    k :| 0 <= k < |s.machines| && s.machines[k] == FirstMachine(s, t);
  }

  lemma StartedIsAboutToReport(s: Store, t: string, g: Generated, i: nat, w: World)
    requires CanStart(s, t) && FirstMachine(s, t).upToDate.NotSet?
    requires HasStarted(s, t, g, i, Updated, w.store) && t !in w.flights
    ensures AboutToReport(w, t, FirstMachine(s, t)) && FirstMachine(s, t) in w.store.machines
  {
    var k := FirstMachineStored(s, t);
    StartedFacts(s, t, g, i, Updated, w.store);
    OnlyNewest(w.store.nodeTasks[i], FirstMachine(s, t));
    BeginEnabled(w, t);
  }

  lemma BeginEnabled(w: World, t: string)
    requires t in w.store.tasks && t !in w.flights && w.store.tasks[t].finalizer && HasScope(w.store, w.store.tasks[t])
    requires AllReadable(Mine(w.store, t))
    ensures Enabled(w, Begin(t))
  {
  }

  lemma ReportIsDue(s: Store, t: string, g: Generated, newTask: string) returns (run: seq<Action>)
    requires CanStart(s, t) && FirstMachine(s, t).upToDate.NotSet? && !NodeExists(s.nodeTasks, FirstNode(s, t, g))
    requires newTask !in s.tasks
    ensures IsRun(Initial(s), run) && IsDue(End(Initial(s), run), t, FirstMachine(s, t), newTask)
    ensures Matches(FirstMachine(s, t).labels, Selector(s.tasks[t]).value)
  {
    var i;
    run, i := FirstNodeReached(s, [], t, g, Updated);
    StartedIsAboutToReport(s, t, g, i, End(Initial(s), run));
    var k := FirstMachineStored(s, t);
  }

  /** Both are reachable: in every rollout that can start from a fresh store, runs with a late report and with
      a stale annotation end in a false condition. */
  lemma FalseReports(s: Store, t: string, g: Generated, newTask: string) returns (late: seq<Action>, stale: seq<Action>)
    requires IsFreshStore(s) && CanStart(s, t) && !NodeExists(s.nodeTasks, FirstNode(s, t, g))
    requires FirstMachine(s, t).upToDate.NotSet?
    requires newTask !in s.tasks
    ensures IsRun(Initial(s), late) && !ConditionsTrue(End(Initial(s), late).store)
    ensures IsRun(Initial(s), stale) && !ConditionsTrue(End(Initial(s), stale).store)
  {
    var run := ReportIsDue(s, t, g, newTask);
    var w, m, selector := End(Initial(s), run), FirstMachine(s, t), Selector(s.tasks[t]).value;
    LateTrueHappens(w, t, m, newTask, selector);
    RunConcat(Initial(s), run, LateRun(t, m, newTask, selector));
    late := run + LateRun(t, m, newTask, selector);
    StaleListHappens(w, t, m, newTask, selector);
    RunConcat(Initial(s), run, StaleRun(t, m, newTask, selector));
    stale := run + StaleRun(t, m, newTask, selector);
  }

  /******* Aborted while a node task runs *******/

  lemma LeftIs(w: World, k: nat)
    requires k < |w.store.machines| && DistinctNames(w.store.machines)
    ensures Enabled(w, Environment(LeaveMachine(k)))
    ensures var w' := Next(w, Environment(LeaveMachine(k)));
      && w' == w.(store := w.store.(machines := w'.store.machines))
      && (forall m :: m in w'.store.machines ==> m in w.store.machines && m.name != w.store.machines[k].name)
  {
    assert w.log + [] == w.log;
  }

  lemma AbortIs(w: World, t: string)
    requires t in w.store.tasks
    ensures Enabled(w, Environment(SetPhase(t, Abort)))
    ensures Next(w, Environment(SetPhase(t, Abort))) ==
            w.(store := w.store.(tasks := w.store.tasks[t := w.store.tasks[t].(phase := Abort)]))
  {
    assert w.log + [] == w.log;
  }

  // Task t is aborted, holds its finalizer, and its only node task runs for a machine that is gone.
  ghost predicate RunsForGoneMachine(s: Store, t: string, n: NodeTask) {
    && ValidStore(s) && t in s.tasks && s.tasks[t].finalizer && s.tasks[t].phase.Abort? && HasScope(s, s.tasks[t])
    && Mine(s, t) == [n] && IsReadable(n) && IsNodeRunning(n)
    && forall m :: m in s.machines ==> n.machineName != Some(m.name)
  }

  lemma GoneOnceAborted(s: Store, t: string, n: NodeTask)
    requires ValidStore(s) && t in s.tasks && s.tasks[t].finalizer && HasScope(s, s.tasks[t]) && Mine(s, t) == [n]
    requires IsReadable(n) && IsNodeRunning(n) && forall m :: m in s.machines ==> n.machineName != Some(m.name)
    ensures RunsForGoneMachine(s.(tasks := s.tasks[t := s.tasks[t].(phase := Abort)]), t, n)
  {
  }

  // The machine of the first node task leaves, and the task is aborted.
  lemma ToGoneMachine(s: Store, t: string, g: Generated, i: nat, w: World, k: nat) returns (run: seq<Action>)
    requires CanStart(s, t) && HasStarted(s, t, g, i, InProgress, w.store)
    requires ValidStore(w.store) && k < |s.machines| && s.machines[k] == FirstMachine(s, t)
    ensures IsRun(w, run) && RunsForGoneMachine(End(w, run).store, t, w.store.nodeTasks[i])
  {
    var leave := Environment(LeaveMachine(k));
    LeftIs(w, k);
    OneStep(w, leave);
    MachinesStayDistinct(w, leave);
    var w1 := Next(w, leave);
    AbortIs(w1, t);
    Extend(w, [leave], Environment(SetPhase(t, Abort)));
    run := [leave] + [Environment(SetPhase(t, Abort))];
    StartedFacts(s, t, g, i, InProgress, w.store);
    assert Mine(w1.store, t) == Mine(w.store, t);
    GoneOnceAborted(w1.store, t, w.store.nodeTasks[i]);
  }

  /** A reachable state in which an aborted task has one running node task, whose machine has left. */
  lemma GoneMachineReached(s: Store, t: string, g: Generated) returns (run: seq<Action>, n: NodeTask)
    requires IsFreshStore(s) && CanStart(s, t) && !NodeExists(s.nodeTasks, FirstNode(s, t, g))
    ensures IsRun(Initial(s), run) && RunsForGoneMachine(End(Initial(s), run).store, t, n)
  {
    var i;
    run, i := FirstNodeReached(s, [], t, g, InProgress);
    var w := End(Initial(s), run);
    n := w.store.nodeTasks[i];
    FreshStoreInv(s);
    InvRun(Initial(s), run);
    var k := FirstMachineStored(s, t);
    var more := ToGoneMachine(s, t, g, i, w, k);
    RunConcat(Initial(s), run, more);
    run := run + more;
  }

  lemma GoneMachineIsAborted(s: Store, t: string, n: NodeTask)
    requires RunsForGoneMachine(s, t, n)
    ensures AllReadable(Mine(s, t)) && StatusState(ScopeFor(s, s.tasks[t])) == Aborted
  {
    var scope := ScopeFor(s, s.tasks[t]);
    AbortedIsExact(scope);
    forall m | m in scope.machines ensures !IsRunning(m, NewestOf(scope.nodes)) {
      NewestExact(Statuses(scope.nodes), m.name);
      assert Statuses(scope.nodes) == [StatusOf(n)];
    }
  }

  // Aborted is saved, and a node task of the task is running.
  ghost predicate ReportsAbortedTooSoon(s: Store, t: string) {
    t in s.tasks && s.tasks[t].state.Aborted? && exists n :: n in Mine(s, t) && IsNodeRunning(n)
  }

  lemma GoneMachineIsIgnored(s: Store, t: string, n: NodeTask)
    requires RunsForGoneMachine(s, t, n)
    ensures ReportsAbortedTooSoon(Reconciled(s, t, NO_FAILURES).store, t)
  {
    GoneMachineIsAborted(s, t, n);
    AbortIsSafe(s, s.tasks[t], NO_FAILURES);
    ListedMembers(s.nodeTasks, KeyOf(s.tasks[t]));
    assert n in Mine(s, t);
    var i :| 0 <= i < |s.nodeTasks| && s.nodeTasks[i] == n;
    var s' := Reconciled(s, t, NO_FAILURES).store;
    var n' := s'.nodeTasks[i];
    ListedMembers(s'.nodeTasks, KeyOf(s.tasks[t]));
    assert n' in Mine(s', t) && IsNodeRunning(n');
  }

  /** In every rollout that can start from a fresh store, some run ends where a reconcile without failures finds
      its scope and saves Aborted, while the node task of a machine that has left is running. */
  lemma AbortedWhileRunning(s: Store, t: string, g: Generated) returns (run: seq<Action>)
    requires IsFreshStore(s) && CanStart(s, t) && !NodeExists(s.nodeTasks, FirstNode(s, t, g))
    ensures IsRun(Initial(s), run)
    ensures var s' := End(Initial(s), run).store;
      && t in s'.tasks && NewScope(s', s'.tasks[t], NO_FAILURES).Some?
      && ReportsAbortedTooSoon(Reconciled(s', t, NO_FAILURES).store, t)
  {
    var n;
    run, n := GoneMachineReached(s, t, g);
    GoneMachineIsIgnored(End(Initial(s), run).store, t, n);
  }

  /******* Updated while a node task has failed or runs *******/

  // Task t is neither aborted nor terminated, and its only node task is for a machine that is gone, as are all
  // machines of its rollout.
  ghost predicate IsLeftAlone(s: Store, t: string, n: NodeTask) {
    && ValidStore(s) && t in s.tasks && s.tasks[t].finalizer && !AbortRequested(s.tasks[t]) && HasScope(s, s.tasks[t])
    && s.tasks[t].phase.Update? && Mine(s, t) == [n] && IsReadable(n)
    && (forall m :: m in s.machines ==> n.machineName != Some(m.name))
    && forall name :: !InRollout(s, t, name)
  }

  lemma ToLeftAlone(s: Store, t: string, g: Generated, i: nat, st: State, w: World, k: nat)
    requires CanStart(s, t) && HasStarted(s, t, g, i, st, w.store) && ValidStore(w.store)
    requires k < |s.machines| && s.machines[k] == FirstMachine(s, t)
    requires forall name :: InRollout(s, t, name) ==> name == FirstMachine(s, t).name
    ensures Enabled(w, Environment(LeaveMachine(k)))
    ensures IsLeftAlone(Next(w, Environment(LeaveMachine(k))).store, t, w.store.nodeTasks[i])
  {
    var leave := Environment(LeaveMachine(k));
    StartedFacts(s, t, g, i, st, w.store);
    LeftIs(w, k);
    MachinesStayDistinct(w, leave);
    var w1 := Next(w, leave);
    assert Mine(w1.store, t) == Mine(w.store, t);
    forall name ensures !InRollout(w1.store, t, name) {
      RolloutShrinks(w, leave, t, name);
      assert InRollout(w.store, t, name) <==> InRollout(s, t, name);
    }
  }

  lemma LeftAloneIsUpdated(s: Store, t: string, n: NodeTask)
    requires IsLeftAlone(s, t, n)
    ensures AllReadable(Mine(s, t)) && StatusState(ScopeFor(s, s.tasks[t])) == Updated
  {
    var scope := ScopeFor(s, s.tasks[t]);
    forall m | m in scope.machines && IsMachineInUpdateScope(m, t) ensures false {
      assert InRollout(s, t, m.name);
    }
    UpdatedIsExact(scope);
    DoneExact(scope);
  }

  lemma LeftAloneIsSaved(s: Store, t: string, n: NodeTask)
    requires IsLeftAlone(s, t, n)
    ensures var s' := Reconciled(s, t, NO_FAILURES).store;
      t in s'.tasks && s'.tasks[t].state == Updated && Mine(s', t) == [n]
  {
    LeftAloneIsUpdated(s, t, n);
    UpdatedIsQuiet(s, s.tasks[t], NO_FAILURES);
    SavedState(s, t);
  }

  // What a reconcile without failures has computed is saved, and the task keeps listing the same node tasks.
  lemma SavedState(s: Store, t: string)
    requires ValidStore(s) && t in s.tasks && s.tasks[t].finalizer && HasScope(s, s.tasks[t])
    requires AllReadable(Mine(s, t))
    ensures var s', w := Reconciled(s, t, NO_FAILURES).store, ScopedWork(s, ScopeFor(s, s.tasks[t]), NO_FAILURES);
      && t in s'.tasks && s'.tasks[t].state == StatusState(ScopeFor(s, s.tasks[t]))
      && s'.nodeTasks == w.store.nodeTasks && KeyOf(s'.tasks[t]) == KeyOf(s.tasks[t])
  {
    BodyState(s, ScopeFor(s, s.tasks[t]));
  }

  lemma BodyState(s: Store, scope: Scope)
    requires AllReadable(scope.nodes)
    ensures var t := ScopedWork(s, scope, NO_FAILURES).task;
      t.state == StatusState(scope) && KeyOf(t) == KeyOf(scope.task)
  {
    var marked := BodyTask(s, scope, NO_FAILURES);
  }

  /** In every rollout that can start from a fresh store with a single machine in scope, some run ends where a
      reconcile without failures saves Updated, although the only node task has failed, or runs, or is in any
      other state: its machine has left. */
  lemma UpdatedDespiteFailure(s: Store, t: string, g: Generated, st: State) returns (run: seq<Action>)
    requires IsFreshStore(s) && CanStart(s, t) && !NodeExists(s.nodeTasks, FirstNode(s, t, g))
    requires forall name :: InRollout(s, t, name) ==> name == FirstMachine(s, t).name
    ensures IsRun(Initial(s), run)
    ensures var s' := End(Initial(s), run).store;
      && t in s'.tasks && NewScope(s', s'.tasks[t], NO_FAILURES).Some?
      && var s'' := Reconciled(s', t, NO_FAILURES).store;
      && t in s''.tasks && s''.tasks[t].state == Updated && |Mine(s'', t)| == 1 && StateOf(Mine(s'', t)[0]) == st
  {
    var i;
    run, i := FirstNodeReached(s, [], t, g, st);
    var w := End(Initial(s), run);
    StartedFacts(s, t, g, i, st, w.store);
    FreshStoreInv(s);
    InvRun(Initial(s), run);
    var k := FirstMachineStored(s, t);
    ToLeftAlone(s, t, g, i, st, w, k);
    Extend(Initial(s), run, Environment(LeaveMachine(k)));
    run := run + [Environment(LeaveMachine(k))];
    LeftAloneIsSaved(End(Initial(s), run).store, t, w.store.nodeTasks[i]);
  }

  /******* Two machines down *******/

  // Two fresh tasks of one control plane that start with different machines of it.
  ghost predicate CanOverlap(s: Store, t: string, u: string, f: Fleet) {
    && f.tasks == {t, u} && t != u && IsFleet(s, f) && CanStart(s, t) && CanStart(s, u)
    && FirstMachine(s, t).name != FirstMachine(s, u).name
    && IsOwned(FirstMachine(s, t), s.controlPlanes[f.plane]) && IsOwned(FirstMachine(s, u), s.controlPlanes[f.plane])
  }

  // The start of one task leaves the other as it was.
  lemma FirstIsNotFor(s: Store, t: string, g: Generated, key: NodeKey)
    requires CanStart(s, t) && key.task != t
    ensures !BelongsTo(FirstNode(s, t, g), key)
  {
  }

  lemma StillNone(s: Store, t: string, g: Generated, key: NodeKey)
    requires CanStart(s, t) && key.task != t
    ensures Listed(FirstWorld(s, [], t, g).store.nodeTasks, key) == Listed(s.nodeTasks, key)
  {
    FirstIsNotFor(s, t, g, key);
    var k := ListedInsert(s.nodeTasks, g.position, FirstNode(s, t, g), key);
  }

  lemma StillFresh(s: Store, t: string, g: Generated, u: string)
    requires CanStart(s, t) && CanStart(s, u) && t != u && !NodeExists(s.nodeTasks, FirstNode(s, t, g))
    ensures var s1 := FirstWorld(s, [], t, g).store;
      ValidStore(s1) && u in s1.tasks && s1.tasks[u] == s.tasks[u] && Mine(s1, u) == []
  {
    InsertDistinctNodes(s.nodeTasks, g.position, FirstNode(s, t, g));
    StillNone(s, t, g, KeyOf(s.tasks[u]));
  }

  lemma StillStarts(s: Store, t: string, g: Generated, u: string)
    requires CanStart(s, t) && CanStart(s, u) && t != u && !NodeExists(s.nodeTasks, FirstNode(s, t, g))
    ensures CanStart(FirstWorld(s, [], t, g).store, u)
    ensures FirstMachine(FirstWorld(s, [], t, g).store, u) == FirstMachine(s, u)
  {
    var s1 := FirstWorld(s, [], t, g).store;
    StillFresh(s, t, g, u);
    assert ScopeFor(s1, s1.tasks[u]) == ScopeFor(s, s.tasks[u]);
    OtherGate(s, s1, s.tasks[u]);
  }

  lemma OtherGate(s: Store, s1: Store, t: UpdateTask)
    requires s1 == s.(tasks := s1.tasks, nodeTasks := s1.nodeTasks) && GateOpen(s, t)
    ensures GateOpen(s1, t)
  {
  }

  lemma {:induction false} UndisturbedIsCalm(w: World, run: seq<Action>, f: Fleet)
    requires IsRun(w, run) && IsUndisturbedRun(run) && IsFleet(w.store, f)
    ensures IsCalmRunFor(w, run, f) && IsFleet(End(w, run).store, f)
    decreases run
  {
    if run != [] {
      assert run[0] in run && forall a :: a in run[1..] ==> a in run;
      FleetStep(w, run[0], f);
      UndisturbedIsCalm(Next(w, run[0]), run[1..], f);
    }
  }

  lemma {:induction false} CalmExtend(w: World, run: seq<Action>, a: Action, f: Fleet)
    requires IsRun(w, run) && IsCalmRunFor(w, run, f) && Enabled(End(w, run), a)
    requires IsFleet(End(w, run).store, f) && IsCalmFor(End(w, run), a, f)
    ensures IsRun(w, run + [a]) && End(w, run + [a]) == Next(End(w, run), a) && IsCalmRunFor(w, run + [a], f)
    decreases run
  {
    Extend(w, run, a);
    if run == [] {
      assert run + [a] == [a] && [a][1..] == [];
    } else {
      assert (run + [a])[0] == run[0] && (run + [a])[1..] == run[1..] + [a];
      CalmExtend(Next(w, run[0]), run[1..], a, f);
    }
  }

  function Broken(m: Machine): Machine {
    m.(hasNode := false)
  }

  // A machine with an open node task may lose its node.
  lemma BreakIs(w: World, f: Fleet, i: nat)
    requires IsFleet(w.store, f) && i < |w.store.machines| && HasOpenIn(w.store, f, w.store.machines[i].name)
    ensures var ms, a := w.store.machines, Environment(ChangeMachine(i, Broken(w.store.machines[i])));
      && Enabled(w, a) && IsCalmFor(w, a, f)
      && Next(w, a) == w.(store := w.store.(machines := ms[i := Broken(ms[i])]))
  {
    assert w.log + [] == w.log;
  }

  lemma IsOpenFor(s: Store, t: string, n: NodeTask, name: string)
    requires t in s.tasks && n in s.nodeTasks && BelongsTo(n, KeyOf(s.tasks[t]))
    requires IsOpen(n) && n.machineName == Some(name)
    ensures HasOpen(Mine(s, t), name)
  {
    ListedMembers(s.nodeTasks, KeyOf(s.tasks[t]));
    assert n in Mine(s, t);
  }

  lemma FirstIsOpen(s: Store, t: string, g: Generated)
    requires CanStart(s, t)
    ensures var n := FirstNode(s, t, g);
      BelongsTo(n, KeyOf(s.tasks[t])) && IsOpen(n) && n.machineName == Some(FirstMachine(s, t).name)
  {
  }

  // Both tasks have started, one after the other.
  ghost function Overlapping(s: Store, t: string, g: Generated, u: string, h: Generated): World
    requires CanStart(s, t) && CanStart(FirstWorld(s, [], t, g).store, u)
  {
    FirstWorld(FirstWorld(s, [], t, g).store, FirstWorld(s, [], t, g).log, u, h)
  }

  lemma OverlappingStore(s: Store, t: string, g: Generated, u: string, h: Generated)
    requires CanStart(s, t) && CanStart(FirstWorld(s, [], t, g).store, u)
    ensures var s1, s2 := FirstWorld(s, [], t, g).store, Overlapping(s, t, g, u, h).store;
      && s2.machines == s.machines && s2.controlPlanes == s.controlPlanes && t in s2.tasks && u in s2.tasks
      && KeyOf(s2.tasks[t]) == KeyOf(s.tasks[t]) && KeyOf(s2.tasks[u]) == KeyOf(s1.tasks[u])
      && FirstNode(s, t, g) in s2.nodeTasks && FirstNode(s1, u, h) in s2.nodeTasks
  {
    var n, n' := FirstNode(s, t, g), FirstNode(FirstWorld(s, [], t, g).store, u, h);
    assert n in FirstWorld(s, [], t, g).store.nodeTasks;
  }

  lemma BothOpen(s: Store, t: string, g: Generated, u: string, h: Generated, f: Fleet)
    requires f.tasks == {t, u} && CanStart(s, t) && CanStart(FirstWorld(s, [], t, g).store, u)
    ensures var s1, s2 := FirstWorld(s, [], t, g).store, Overlapping(s, t, g, u, h).store;
      HasOpenIn(s2, f, FirstMachine(s, t).name) && HasOpenIn(s2, f, FirstMachine(s1, u).name)
  {
    var s1, s2 := FirstWorld(s, [], t, g).store, Overlapping(s, t, g, u, h).store;
    OverlappingStore(s, t, g, u, h);
    FirstIsOpen(s, t, g);
    FirstIsOpen(s1, u, h);
    IsOpenFor(s2, t, FirstNode(s, t, g), FirstMachine(s, t).name);
    IsOpenFor(s2, u, FirstNode(s1, u, h), FirstMachine(s1, u).name);
  }

  lemma BothStarted(s: Store, t: string, g: Generated, u: string, h: Generated, f: Fleet) returns (run: seq<Action>)
    requires IsFleet(s, f) && CanStart(s, t) && !NodeExists(s.nodeTasks, FirstNode(s, t, g))
    requires CanStart(FirstWorld(s, [], t, g).store, u)
    requires !NodeExists(FirstWorld(s, [], t, g).store.nodeTasks, FirstNode(FirstWorld(s, [], t, g).store, u, h))
    ensures IsRun(Initial(s), run) && IsCalmRunFor(Initial(s), run, f) && IsFleet(End(Initial(s), run).store, f)
    ensures End(Initial(s), run) == Overlapping(s, t, g, u, h)
  {
    var w1 := FirstWorld(s, [], t, g);
    run := ToTheFirstNode(s, [], t, g);
    var more := ToTheFirstNode(w1.store, w1.log, u, h);
    assert w1 == At(w1.store, w1.log);
    RunConcat(Initial(s), run, more);
    run := run + more;
    UndisturbedIsCalm(Initial(s), run, f);
  }

  lemma BothDown(w: World, run: seq<Action>, f: Fleet, i: nat, j: nat) returns (all: seq<Action>)
    requires IsRun(w, run) && IsCalmRunFor(w, run, f) && IsFleet(End(w, run).store, f)
    requires var s := End(w, run).store;
      && i < |s.machines| && j < |s.machines| && i != j
      && HasOpenIn(s, f, s.machines[i].name) && HasOpenIn(s, f, s.machines[j].name)
    ensures IsRun(w, all) && IsCalmRunFor(w, all, f)
    ensures var ms := End(w, run).store.machines;
      End(w, all).store == End(w, run).store.(machines := ms[i := Broken(ms[i])][j := Broken(ms[j])])
  {
    var w1 := End(w, run);
    var ms := w1.store.machines;
    BreakIs(w1, f, i);
    CalmExtend(w, run, Environment(ChangeMachine(i, Broken(ms[i]))), f);
    all := run + [Environment(ChangeMachine(i, Broken(ms[i])))];
    var w2 := End(w, all);
    assert IsFleet(w2.store, f);
    OpenStays(w1.store, w2.store, f, ms[j].name);
    BreakIs(w2, f, j);
    CalmExtend(w, all, Environment(ChangeMachine(j, Broken(ms[j]))), f);
    all := all + [Environment(ChangeMachine(j, Broken(ms[j])))];
  }

  lemma OpenStays(s: Store, s': Store, f: Fleet, name: string)
    requires s' == s.(machines := s'.machines) && HasOpenIn(s, f, name)
    ensures HasOpenIn(s', f, name)
  {
    var t :| t in f.tasks && t in s.tasks && HasOpen(Mine(s, t), name);
    assert Mine(s', t) == Mine(s, t);
  }

  // At least two machines of the control plane are unhealthy.
  predicate AreTwoDown(s: Store, f: Fleet)
    requires IsFleet(s, f)
  {
    var cp := s.controlPlanes[f.plane];
    exists i, j :: 0 <= i < |s.machines| && 0 <= j < |s.machines| && s.machines[i].name != s.machines[j].name
      && IsOwned(s.machines[i], cp) && !IsHealthy(s.machines[i], cp)
      && IsOwned(s.machines[j], cp) && !IsHealthy(s.machines[j], cp)
  }

  lemma BrokenAreDown(s: Store, ms: seq<Machine>, f: Fleet, i: nat, j: nat)
    requires IsFleet(s, f) && i < |ms| && j < |ms| && ms[i].name != ms[j].name
    requires IsOwned(ms[i], s.controlPlanes[f.plane]) && IsOwned(ms[j], s.controlPlanes[f.plane])
    requires s.machines == ms[i := Broken(ms[i])][j := Broken(ms[j])]
    ensures AreTwoDown(s, f)
  {
    assert s.machines[i] == Broken(ms[i]) && s.machines[j] == Broken(ms[j]);
  }

  // The generated names are new.
  predicate AreFresh(ns: seq<NodeTask>, g: Generated, h: Generated) {
    g.name != h.name && forall n :: n in ns ==> n.name != g.name && n.name != h.name
  }

  lemma FreshNodes(s: Store, t: string, g: Generated, u: string, h: Generated)
    requires CanStart(s, t) && CanStart(FirstWorld(s, [], t, g).store, u) && AreFresh(s.nodeTasks, g, h)
    ensures !NodeExists(FirstWorld(s, [], t, g).store.nodeTasks, FirstNode(FirstWorld(s, [], t, g).store, u, h))
  {
    assert FirstNode(s, t, g).name == g.name;
    InsertedNames(s.nodeTasks, g.position, FirstNode(s, t, g), h.name);
  }

  lemma InsertedNames(ns: seq<NodeTask>, p: nat, n: NodeTask, name: string)
    requires n.name != name && forall x :: x in ns ==> x.name != name
    ensures forall x :: x in Insert(ns, p, n) ==> x.name != name
  {
  }

  /** The bound for several tasks is sharp: two tasks of one control plane that start with different machines have
      a calm run that takes both machines down, which is the majority of three. */
  lemma OverlapTakesTwoDown(s: Store, t: string, g: Generated, u: string, h: Generated, f: Fleet)
    returns (run: seq<Action>)
    requires IsFreshStore(s) && CanOverlap(s, t, u, f) && AreFresh(s.nodeTasks, g, h)
    ensures IsRun(Initial(s), run) && IsCalmRunFor(Initial(s), run, f)
    ensures IsFleet(End(Initial(s), run).store, f) && AreTwoDown(End(Initial(s), run).store, f)
  {
    assert !NodeExists(s.nodeTasks, FirstNode(s, t, g));
    StillStarts(s, t, g, u);
    FreshNodes(s, t, g, u, h);
    run := BothStarted(s, t, g, u, h, f);
    BothOpen(s, t, g, u, h, f);
    OverlappingStore(s, t, g, u, h);
    var i := FirstMachineStored(s, t);
    var j := FirstMachineStored(s, u);
    run := BothDown(Initial(s), run, f, i, j);
    BrokenAreDown(End(Initial(s), run).store, s.machines, f, i, j);
  }

  lemma PlaneFleet(ms: seq<Machine>, names: set<string>)
    requires DistinctNames(ms)
    ensures IsFreshStore(PlaneStore(ms, names)) && IsFleet(PlaneStore(ms, names), Fleet(names, "cp"))
  {
  }

  lemma MemberIsOwned(m: Machine)
    requires IsMember(m)
    ensures IsOwned(m, PLANE)
  {
  }

  lemma PlaneOverlaps(ms: seq<Machine>, t: string, a: Machine, u: string, b: Machine)
    requires DistinctNames(ms) && t != u && a.name != b.name && forall x :: x in ms ==> IsMember(x)
    requires StartsWith(ms, t, a) && StartsWith(ms, u, b)
    ensures CanOverlap(PlaneStore(ms, {t, u}), t, u, Fleet({t, u}, "cp"))
  {
    PlaneStarts(ms, {t, u}, t, a);
    PlaneStarts(ms, {t, u}, u, b);
    PlaneFleet(ms, {t, u});
    MemberIsOwned(a);
    MemberIsOwned(b);
  }

  lemma ThreeMembers(a: string, b: string, c: string, t: string, u: string)
    requires a != b && b != c && a != c && t != u
    ensures var x, y, z := Member(a, 0, Some(t)), Member(b, 1, Some(u)), Member(c, 2, None);
      && DistinctNames([x, y, z]) && (forall m :: m in [x, y, z] ==> IsMember(m))
      && StartsWith([x, y, z], t, x) && StartsWith([x, y, z], u, y)
  {
  }

  // Such a store exists: three machines of a kubeadm control plane, two of them annotated by requests whose loops
  // have crossed, so that each of two fresh tasks has one.
  lemma AnOverlap() returns (s: Store, t: string, u: string, f: Fleet)
    ensures IsFreshStore(s) && CanOverlap(s, t, u, f) && |s.machines| == 3
    ensures forall m :: m in s.machines ==> IsOwned(m, s.controlPlanes[f.plane])
  {
    t, u := "t", "u";
    assert t[0] != u[0];
    var names := ["a", "b", "c"];
    assert names[0][0] == 'a' && names[1][0] == 'b' && names[2][0] == 'c';
    ThreeMembers(names[0], names[1], names[2], t, u);
    var ms := [Member(names[0], 0, Some(t)), Member(names[1], 1, Some(u)), Member(names[2], 2, None)];
    s, f := PlaneStore(ms, {t, u}), Fleet({t, u}, "cp");
    PlaneFleet(ms, {t, u});
    PlaneOverlaps(ms, t, ms[0], u, ms[1]);
    forall m | m in ms ensures IsOwned(m, PLANE) {
      MemberIsOwned(m);
    }
  }
}
