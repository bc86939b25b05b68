/** Quorum when rollouts overlap, as they do in a hand-over: each update task of a kubeadm control plane takes at
    most one machine down, also while other tasks of the control plane pass the gate and create. */
module FleetQuorum {
  import opened Objects
  import opened Nodes
  import opened Scopes
  import opened ControlPlanes
  import opened Protocol
  import opened Invariants
  import opened Quorum

  // The update tasks, stored now or later, of one control plane.
  datatype Fleet = Fleet(tasks: set<string>, plane: string)

  predicate IsOf(t: UpdateTask, plane: string) {
    t.controlPlane.Some? && t.controlPlane.value.kind == KUBEADM && t.controlPlane.value.name == plane
  }

  predicate IsFleet(s: Store, f: Fleet) {
    && f.plane in s.controlPlanes && ClusterName in s.controlPlanes[f.plane].labels
    && forall t :: t in f.tasks && t in s.tasks ==> IsOf(s.tasks[t], f.plane)
  }

  predicate HasOpen(ns: seq<NodeTask>, machineName: string) {
    exists n :: n in ns && IsOpen(n) && n.machineName == Some(machineName)
  }

  ghost predicate HasOpenIn(s: Store, f: Fleet, machineName: string) {
    exists t :: t in f.tasks && t in s.tasks && HasOpen(Mine(s, t), machineName)
  }

  /** The environment: machines of the control plane join healthy, and turn unhealthy only while a node task of
      some task of the fleet for them is outside Updated and Aborted; a new task of the fleet is for this plane. */
  ghost predicate IsCalmFor(w: World, a: Action, f: Fleet)
    requires IsFleet(w.store, f)
  {
    var cp := w.store.controlPlanes[f.plane];
    a.Environment? ==>
      match a.env
      case JoinMachine(m) => IsOwned(m, cp) ==> IsHealthy(m, cp)
      case ChangeMachine(i, m) =>
        i < |w.store.machines| && IsOwned(m, cp) && IsHealthy(w.store.machines[i], cp) && !IsHealthy(m, cp) ==>
          HasOpenIn(w.store, f, m.name)
      case AddTask(t) => t.name in f.tasks ==> IsOf(t, f.plane)
      case _ => true
  }

  // Past the gate, with the creation still to come.
  predicate IsBehindGate(w: World, t: string) {
    t in w.flights && w.flights[t].cleared && !w.flights[t].created
  }

  // The machine of the task's most recent creation; the next one is not due.
  predicate IsTarget(w: World, f: Fleet, t: string, machineName: string) {
    t in f.tasks && LastCreated(w.log, t) == Some(machineName) && !IsBehindGate(w, t)
  }

  ghost predicate OnlyTargetsDown(w: World, f: Fleet)
    requires IsFleet(w.store, f)
  {
    var cp := w.store.controlPlanes[f.plane];
    forall m :: m in w.store.machines && IsOwned(m, cp) && !IsHealthy(m, cp) ==> exists t :: IsTarget(w, f, t, m.name)
  }

  // Some task of the fleet has passed the gate.
  ghost predicate HasPassed(w: World, f: Fleet) {
    exists t :: t in f.tasks && (LastCreated(w.log, t).Some? || IsBehindGate(w, t))
  }

  ghost predicate OpenAreTargets(w: World, f: Fleet) {
    forall t :: t in f.tasks && t in w.store.tasks ==> OpenOnly(Mine(w.store, t), LastCreated(w.log, t))
  }

  predicate FlightsOfFleet(w: World, f: Fleet) {
    forall t :: t in f.tasks && t in w.flights ==> IsOf(w.flights[t].scope.task, f.plane)
  }

  ghost predicate FleetInv(w: World, f: Fleet) {
    && IsFleet(w.store, f) && FlightsOfFleet(w, f) && OpenAreTargets(w, f)
    && (HasPassed(w, f) ==> OnlyTargetsDown(w, f))
  }

  lemma FleetStep(w: World, a: Action, f: Fleet)
    requires Enabled(w, a) && IsFleet(w.store, f) && IsCalmFor(w, a, f)
    ensures IsFleet(Next(w, a).store, f)
  {
  }

  lemma FlightsOfFleetStep(w: World, a: Action, f: Fleet)
    requires Enabled(w, a) && IsFleet(w.store, f) && FlightsOfFleet(w, f)
    ensures FlightsOfFleet(Next(w, a), f)
  {
  }

  lemma OpenStep(w: World, a: Action, f: Fleet, t: string)
    requires Inv(w) && FleetInv(w, f) && Enabled(w, a) && t in f.tasks && t in Next(w, a).store.tasks
    ensures OpenOnly(Mine(Next(w, a).store, t), LastCreated(Next(w, a).log, t))
  {
    if CreatesFor(a, t) {
      OpenAfterCreation(w, t, a.generated);
    } else if t in w.store.tasks {
      EventsStep(w, a, t);
      MineEvolves(w, a, t);
      LaterOpenOnly(Mine(w.store, t), Mine(Next(w, a).store, t), LastCreated(w.log, t));
    } else {
      AddedHasNone(w, a, t);
    }
  }

  lemma OpenAfterCreation(w: World, t: string, g: Generated)
    requires Inv(w) && Enabled(w, CreateNode(t, g))
    ensures var w' := Next(w, CreateNode(t, g));
      t in w'.store.tasks && OpenOnly(Mine(w'.store, t), LastCreated(w'.log, t))
  {
    CreationIsSafe(w, t, g);
    var k := MineGrows(w, CreateNode(t, g), t);
    var n := NodeFor(w, w.flights[t], g);
    OnlyNewOpen(Mine(w.store, t), k, n);
    CreatedIsLast(w.log, t, Target(w.flights[t].scope).value.name);
  }

  // A machine that is down after a step was down before it, or has an open node task of the fleet.
  lemma DownOrigin(w: World, a: Action, f: Fleet, m: Machine)
    requires Enabled(w, a) && IsFleet(w.store, f) && IsCalmFor(w, a, f) && m in NextMachines(w, a)
    requires var cp := w.store.controlPlanes[f.plane]; IsOwned(m, cp) && !IsHealthy(m, cp)
    ensures IsDown(w.store, f, m.name) || (a.Environment? && HasOpenIn(w.store, f, m.name))
  {
    var cp, ms, ms' := w.store.controlPlanes[f.plane], w.store.machines, NextMachines(w, a);
    if m !in ms {
      var i :| 0 <= i < |ms'| && ms'[i] == m;
      assert i < |ms| && ms[i] in ms && ms[i].name == m.name && ms[i].labels == m.labels;
      assert IsHealthy(ms[i], cp) ==> a.Environment? && a.env.ChangeMachine?;
    }
  }

  predicate IsDown(s: Store, f: Fleet, machineName: string)
    requires IsFleet(s, f)
  {
    var cp := s.controlPlanes[f.plane];
    exists m :: m in s.machines && m.name == machineName && IsOwned(m, cp) && !IsHealthy(m, cp)
  }

  // A task with an open node task for a machine has it as its target.
  lemma OpenIsTarget(w: World, f: Fleet, machineName: string) returns (t: string)
    requires Inv(w) && OpenAreTargets(w, f) && HasOpenIn(w.store, f, machineName)
    ensures IsTarget(w, f, t, machineName)
  {
    t :| t in f.tasks && t in w.store.tasks && HasOpen(Mine(w.store, t), machineName);
    if IsBehindGate(w, t) { ClearedMeansSettled(w, t); }
  }

  // No step but another passage of the gate, which finds all machines healthy, makes a target anything else.
  lemma TargetStep(w: World, a: Action, f: Fleet, t: string, machineName: string)
    requires Enabled(w, a) && IsTarget(w, f, t, machineName) && a != PassGate(t)
    ensures IsTarget(Next(w, a), f, t, machineName)
  {
    EventsStep(w, a, t);
  }

  lemma PassedBefore(w: World, a: Action, f: Fleet)
    requires Enabled(w, a) && HasPassed(Next(w, a), f)
    ensures HasPassed(w, f) || (a.PassGate? && a.task in f.tasks)
  {
    var t :| t in f.tasks && (LastCreated(Next(w, a).log, t).Some? || IsBehindGate(Next(w, a), t));
    if CreatesFor(a, t) {
      assert IsBehindGate(w, t);
    } else {
      EventsStep(w, a, t);
      if IsBehindGate(Next(w, a), t) { BehindGateOrigin(w, a, t); }
    }
  }

  lemma BehindGateOrigin(w: World, a: Action, t: string)
    requires Enabled(w, a) && IsBehindGate(Next(w, a), t)
    ensures IsBehindGate(w, t) || a == PassGate(t)
  {
  }

  lemma GateMeansUp(s: Store, f: Fleet, copy: UpdateTask, m: Machine)
    requires IsFleet(s, f) && IsOf(copy, f.plane) && GateOpen(s, copy)
    requires m in s.machines && IsOwned(m, s.controlPlanes[f.plane])
    ensures IsHealthy(m, s.controlPlanes[f.plane])
  {
    GateExact(s, copy, NO_FAILURES);
    assert m in OwnedMachines(s, s.controlPlanes[f.plane]);
  }

  // The gate was open: nothing is down.
  lemma NothingDown(w: World, f: Fleet, t: string)
    requires Inv(w) && FleetInv(w, f) && Enabled(w, PassGate(t)) && t in f.tasks
    ensures OnlyTargetsDown(Next(w, PassGate(t)), f)
  {
    forall m | m in w.store.machines && IsOwned(m, w.store.controlPlanes[f.plane])
      ensures IsHealthy(m, w.store.controlPlanes[f.plane])
    {
      GateMeansUp(w.store, f, w.flights[t].scope.task, m);
    }
  }

  lemma DownStep(w: World, a: Action, f: Fleet)
    requires Inv(w) && FleetInv(w, f) && Enabled(w, a) && IsCalmFor(w, a, f) && HasPassed(Next(w, a), f)
    ensures IsFleet(Next(w, a).store, f) && OnlyTargetsDown(Next(w, a), f)
  {
    FleetStep(w, a, f);
    if a.PassGate? && a.task in f.tasks {
      NothingDown(w, f, a.task);
    } else {
      PassedBefore(w, a, f);
      var cp := w.store.controlPlanes[f.plane];
      forall m | m in NextMachines(w, a) && IsOwned(m, cp) && !IsHealthy(m, cp)
        ensures exists t :: IsTarget(Next(w, a), f, t, m.name)
      {
        DownOrigin(w, a, f, m);
        var t := TargetBefore(w, f, m.name);
        TargetStep(w, a, f, t, m.name);
      }
    }
  }

  lemma TargetBefore(w: World, f: Fleet, machineName: string) returns (t: string)
    requires Inv(w) && FleetInv(w, f) && HasPassed(w, f)
    requires IsDown(w.store, f, machineName) || HasOpenIn(w.store, f, machineName)
    ensures IsTarget(w, f, t, machineName)
  {
    if IsDown(w.store, f, machineName) {
      t :| IsTarget(w, f, t, machineName);
    } else {
      t := OpenIsTarget(w, f, machineName);
    }
  }

  /** Whatever the tasks of the fleet do at the same time: once one of them has passed the gate, every machine that
      is down is the latest target of one of them. */
  lemma FleetInvStep(w: World, a: Action, f: Fleet)
    requires Inv(w) && FleetInv(w, f) && Enabled(w, a) && IsCalmFor(w, a, f)
    ensures FleetInv(Next(w, a), f)
  {
    FleetStep(w, a, f);
    FlightsOfFleetStep(w, a, f);
    forall t | t in f.tasks && t in Next(w, a).store.tasks
      ensures OpenOnly(Mine(Next(w, a).store, t), LastCreated(Next(w, a).log, t))
    {
      OpenStep(w, a, f, t);
    }
    if HasPassed(Next(w, a), f) {
      DownStep(w, a, f);
    }
  }

  ghost predicate IsCalmRunFor(w: World, run: seq<Action>, f: Fleet)
    requires IsRun(w, run)
    decreases run
  {
    run == [] || (IsFleet(w.store, f) && IsCalmFor(w, run[0], f) && IsCalmRunFor(Next(w, run[0]), run[1..], f))
  }

  lemma {:induction false} FleetRun(w: World, run: seq<Action>, f: Fleet)
    requires Inv(w) && FleetInv(w, f) && IsRun(w, run) && IsCalmRunFor(w, run, f)
    ensures Inv(End(w, run)) && FleetInv(End(w, run), f)
    decreases run
  {
    if run != [] {
      FleetInvStep(w, run[0], f);
      InvStep(w, run[0]);
      FleetRun(Next(w, run[0]), run[1..], f);
    }
  }

  predicate AllTargets(names: set<string>, tasks: set<string>, log: seq<Event>) {
    forall name :: name in names ==> exists t :: t in tasks && LastCreated(log, t) == Some(name)
  }

  // One task has one target.
  lemma WithoutTask(names: set<string>, tasks: set<string>, log: seq<Event>, name: string, t: string)
    requires AllTargets(names, tasks, log) && LastCreated(log, t) == Some(name)
    ensures AllTargets(names - {name}, tasks - {t}, log)
  {
    forall x | x in names - {name} ensures exists u :: u in tasks - {t} && LastCreated(log, u) == Some(x) {
      var u :| u in tasks && LastCreated(log, u) == Some(x);
      assert u != t;
    }
  }

  lemma {:induction false} NoMoreThanTasks(names: set<string>, tasks: set<string>, log: seq<Event>)
    requires AllTargets(names, tasks, log)
    ensures |names| <= |tasks|
    decreases tasks
  {
    if names != {} {
      var name :| name in names;
      var t :| t in tasks && LastCreated(log, t) == Some(name);
      WithoutTask(names, tasks, log, name, t);
      NoMoreThanTasks(names - {name}, tasks - {t}, log);
    }
  }

  function DownNames(ms: seq<Machine>, cp: ControlPlane): set<string> {
    set m | m in ms && !IsHealthy(m, cp) :: m.name
  }

  lemma HealthyLast(front: seq<Machine>, last: Machine, cp: ControlPlane)
    ensures |HealthyOnes(front + [last], cp)| == |HealthyOnes(front, cp)| + if IsHealthy(last, cp) then 1 else 0
  {
    assert HealthyOnes(front + [last], cp) ==
           HealthyOnes(front, cp) + if IsHealthy(last, cp) then {|front|} else {};
  }

  lemma DownLast(front: seq<Machine>, last: Machine, cp: ControlPlane)
    requires NamesApart(front, last)
    ensures |DownNames(front + [last], cp)| == |DownNames(front, cp)| + if IsHealthy(last, cp) then 0 else 1
  {
    assert last.name !in DownNames(front, cp);
    assert DownNames(front + [last], cp) == DownNames(front, cp) + if IsHealthy(last, cp) then {} else {last.name};
  }

  lemma {:induction false} HealthyOrDown(ms: seq<Machine>, cp: ControlPlane)
    requires DistinctNames(ms)
    ensures |HealthyOnes(ms, cp)| + |DownNames(ms, cp)| == |ms|
  {
    if ms == [] {
      assert HealthyOnes(ms, cp) == {} && DownNames(ms, cp) == {};
    } else {
      var front, last := ms[..|ms| - 1], ms[|ms| - 1];
      assert ms == front + [last];
      HealthyOrDown(front, cp);
      HealthyLast(front, last, cp);
      DownLast(front, last, cp);
    }
  }

  /** In every run from a fresh store, from the first creation of the fleet on: every unhealthy machine of the
      control plane is the latest target of one of the tasks, so there are at most as many as tasks. With one task
      three machines keep a strict majority healthy; through a hand-over between two it takes five. */
  lemma FleetQuorumKept(s: Store, run: seq<Action>, f: Fleet)
    requires IsFreshStore(s) && IsFleet(s, f) && IsRun(Initial(s), run) && IsCalmRunFor(Initial(s), run, f)
    ensures var w := End(Initial(s), run);
      IsFleet(w.store, f) && ((exists t :: t in f.tasks && LastCreated(w.log, t).Some?) ==>
        var cp := w.store.controlPlanes[f.plane];
        var ms := OwnedMachines(w.store, cp);
        && (forall m :: m in ms && !IsHealthy(m, cp) ==>
              exists t :: t in f.tasks && LastCreated(w.log, t) == Some(m.name))
        && |HealthyOnes(ms, cp)| >= |ms| - |f.tasks|
        && (|ms| > 2 * |f.tasks| ==> 2 * |HealthyOnes(ms, cp)| > |ms|))
  {
    FreshStoreInv(s);
    FleetRun(Initial(s), run, f);
    var w := End(Initial(s), run);
    if exists t :: t in f.tasks && LastCreated(w.log, t).Some? {
      var cp := w.store.controlPlanes[f.plane];
      var ms := OwnedMachines(w.store, cp);
      WithLabelsDistinct(w.store.machines, map[ClusterName := cp.labels[ClusterName], ControlPlaneName := cp.name]);
      forall m | m in ms && !IsHealthy(m, cp)
        ensures exists t :: t in f.tasks && LastCreated(w.log, t) == Some(m.name)
      {
        var t :| IsTarget(w, f, t, m.name);
      }
      NoMoreThanTasks(DownNames(ms, cp), f.tasks, w.log);
      HealthyOrDown(ms, cp);
    }
  }
}
