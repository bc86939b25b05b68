/** Quorum: a rollout over a kubeadm control plane takes at most one machine down at a time. */
module Quorum {
  import opened Objects
  import opened Nodes
  import opened Scopes
  import opened ControlPlanes
  import opened Protocol
  import opened Invariants

  predicate IsKubeadmRollout(s: Store, t: string) {
    t in s.tasks && GateApplies(s, s.tasks[t])
  }

  function Plane(s: Store, t: string): ControlPlane
    requires IsKubeadmRollout(s, t)
  {
    s.controlPlanes[s.tasks[t].controlPlane.value.name]
  }

  predicate IsOwned(m: Machine, cp: ControlPlane)
    requires ClusterName in cp.labels
  {
    Matches(m.labels, map[ClusterName := cp.labels[ClusterName], ControlPlaneName := cp.name])
  }

  // Every unhealthy machine of the control plane has this name; with None, all of them are healthy.
  predicate UnhealthyOnly(ms: seq<Machine>, cp: ControlPlane, name: Option<string>)
    requires ClusterName in cp.labels
  {
    forall m :: m in ms && IsOwned(m, cp) && !IsHealthy(m, cp) ==> Some(m.name) == name
  }

  // Every open node task is for this machine; with None, no machine has one.
  predicate OpenOnly(ns: seq<NodeTask>, name: Option<string>) {
    forall n :: n in ns && IsOpen(n) && n.machineName.Some? ==> n.machineName == name
  }

  /** The environment: machines of the control plane join healthy, and turn unhealthy only while their node task
      is outside Updated and Aborted; any machine may leave. */
  ghost predicate IsCalm(w: World, a: Action, t: string)
    requires IsKubeadmRollout(w.store, t)
  {
    a.Environment? ==>
      match a.env
      case JoinMachine(m) => IsOwned(m, Plane(w.store, t)) ==> IsHealthy(m, Plane(w.store, t))
      case ChangeMachine(i, m) =>
        i < |w.store.machines| && IsOwned(m, Plane(w.store, t)) &&
        IsHealthy(w.store.machines[i], Plane(w.store, t)) && !IsHealthy(m, Plane(w.store, t)) ==>
          exists n :: n in Mine(w.store, t) && IsOpen(n) && n.machineName == Some(m.name)
      case _ => true
  }

  lemma HealthStep(w: World, a: Action, t: string, name: Option<string>)
    requires IsKubeadmRollout(w.store, t) && Enabled(w, a) && IsCalm(w, a, t)
    requires UnhealthyOnly(w.store.machines, Plane(w.store, t), name) && OpenOnly(Mine(w.store, t), name)
    ensures UnhealthyOnly(NextMachines(w, a), Plane(w.store, t), name)
  {
    var cp, ms, ms' := Plane(w.store, t), w.store.machines, NextMachines(w, a);
    forall m | m in ms' && IsOwned(m, cp) && !IsHealthy(m, cp) ensures Some(m.name) == name {
      if m !in ms {
        var i :| 0 <= i < |ms'| && ms'[i] == m;
        assert i < |ms| && ms[i] in ms && ms[i].name == m.name && ms[i].labels == m.labels;
        assert IsHealthy(ms[i], cp) ==> a.Environment? && a.env.ChangeMachine?;
      }
    }
  }

  lemma LaterOpenOnly(a: seq<NodeTask>, b: seq<NodeTask>, name: Option<string>)
    requires Later(a, b) && OpenOnly(a, name)
    ensures OpenOnly(b, name)
  {
    forall n | n in b && IsOpen(n) && n.machineName.Some? ensures n.machineName == name {
      var i :| 0 <= i < |b| && b[i] == n;
      assert Evolves(a[i], b[i]) && a[i] in a;
    }
  }

  // The machine of the most recent creation.
  function LastCreated(log: seq<Event>, t: string): Option<string> {
    if log == [] then None
    else
      var e := log[|log| - 1];
      if e.Created? && e.task == t then Some(e.machine) else LastCreated(log[..|log| - 1], t)
  }

  ghost predicate QuorumInv(w: World, t: string) {
    && IsKubeadmRollout(w.store, t)
    && (t in w.flights ==> w.flights[t].scope.task.controlPlane == w.store.tasks[t].controlPlane)
    && (t in w.flights && w.flights[t].cleared && !w.flights[t].created ==>
          UnhealthyOnly(w.store.machines, Plane(w.store, t), None))
    && (LastCreated(w.log, t).Some? ==>
          && UnhealthyOnly(w.store.machines, Plane(w.store, t), LastCreated(w.log, t))
          && OpenOnly(Mine(w.store, t), LastCreated(w.log, t)))
  }

  lemma PlaneStep(w: World, a: Action, t: string)
    requires Enabled(w, a) && IsKubeadmRollout(w.store, t)
    ensures t in NextTasks(w, a) && NextTasks(w, a)[t].controlPlane == w.store.tasks[t].controlPlane
    ensures IsKubeadmRollout(Next(w, a).store, t) && Plane(Next(w, a).store, t) == Plane(w.store, t)
  {
  }

  lemma FlightPlaneStep(w: World, a: Action, t: string)
    requires Enabled(w, a) && IsKubeadmRollout(w.store, t)
    requires t in w.flights ==> w.flights[t].scope.task.controlPlane == w.store.tasks[t].controlPlane
    ensures t in NextFlights(w, a) ==> NextFlights(w, a)[t].scope.task.controlPlane == w.store.tasks[t].controlPlane
    ensures t in NextFlights(w, a) && NextFlights(w, a)[t].cleared && !NextFlights(w, a)[t].created ==>
      t in w.flights && !w.flights[t].created && (w.flights[t].cleared || a == PassGate(t))
  {
  }

  lemma EventsStep(w: World, a: Action, t: string)
    requires Enabled(w, a) && !CreatesFor(a, t)
    ensures LastCreated(Next(w, a).log, t) == LastCreated(w.log, t)
  {
    if StepEvents(w, a) == [] {
      assert w.log + StepEvents(w, a) == w.log;
    } else {
      assert (w.log + StepEvents(w, a))[..|w.log|] == w.log;
    }
  }

  lemma CreatedIsLast(log: seq<Event>, t: string, machineName: string)
    ensures LastCreated(log + [Created(t, machineName)], t) == Some(machineName)
  {
  }

  lemma OnlyNewOpen(mine: seq<NodeTask>, k: nat, n: NodeTask)
    requires k <= |mine| && forall x :: x in mine ==> !IsOpen(x)
    ensures OpenOnly(Insert(mine, k, n), n.machineName)
  {
    assert forall x :: x in Insert(mine, k, n) <==> x in mine || x == n;
  }

  lemma GateMeansHealthy(s: Store, t: string, copy: UpdateTask)
    requires IsKubeadmRollout(s, t) && copy.controlPlane == s.tasks[t].controlPlane && GateOpen(s, copy)
    ensures UnhealthyOnly(s.machines, Plane(s, t), None)
  {
    GateExact(s, copy, NO_FAILURES);
    forall m | m in s.machines && IsOwned(m, Plane(s, t)) ensures IsHealthy(m, Plane(s, t)) {
      assert m in OwnedMachines(s, Plane(s, t));
    }
  }

  // A flight that has passed the gate and not created yet sees no open node task.
  lemma ClearedMeansSettled(w: World, t: string)
    requires FlightsOk(w) && Synced(w) && t in w.flights && w.flights[t].cleared && !w.flights[t].created
    ensures t in w.store.tasks && OpenOnly(Mine(w.store, t), None)
  {
    assert FlightOk(w, t);
    SettledLater(w.flights[t].scope.nodes, Mine(w.store, t));
  }

  lemma QuorumAfterCreation(w: World, a: Action, t: string)
    requires Inv(w) && QuorumInv(w, t) && Enabled(w, a) && CreatesFor(a, t)
    ensures QuorumInv(Next(w, a), t)
  {
    PlaneStep(w, a, t);
    FlightPlaneStep(w, a, t);
    CreationIsSafe(w, t, a.generated);
    var k := MineGrows(w, a, t);
    var n := NodeFor(w, w.flights[t], a.generated);
    OnlyNewOpen(Mine(w.store, t), k, n);
    CreatedIsLast(w.log, t, Target(w.flights[t].scope).value.name);
    assert LastCreated(Next(w, a).log, t) == n.machineName;
    assert NextMachines(w, a) == w.store.machines && NextFlights(w, a)[t].created;
  }

  // After a creation, another step leaves at most the last target unhealthy.
  lemma LastTargetStep(w: World, a: Action, t: string)
    requires Inv(w) && QuorumInv(w, t) && Enabled(w, a) && IsCalm(w, a, t) && !CreatesFor(a, t)
    requires LastCreated(w.log, t).Some?
    ensures t in Next(w, a).store.tasks
    ensures UnhealthyOnly(NextMachines(w, a), Plane(w.store, t), LastCreated(w.log, t))
    ensures OpenOnly(Mine(Next(w, a).store, t), LastCreated(w.log, t))
  {
    MineEvolves(w, a, t);
    HealthStep(w, a, t, LastCreated(w.log, t));
    LaterOpenOnly(Mine(w.store, t), Mine(Next(w, a).store, t), LastCreated(w.log, t));
  }

  // Behind the gate and before the creation, all machines are and stay healthy.
  lemma ClearedStep(w: World, a: Action, t: string)
    requires Inv(w) && QuorumInv(w, t) && Enabled(w, a) && IsCalm(w, a, t) && t in w.flights
    requires !w.flights[t].created && (w.flights[t].cleared || a == PassGate(t))
    ensures UnhealthyOnly(NextMachines(w, a), Plane(w.store, t), None)
  {
    if w.flights[t].cleared {
      ClearedMeansSettled(w, t);
      HealthStep(w, a, t, None);
    } else {
      GateMeansHealthy(w.store, t, w.flights[t].scope.task);
    }
  }

  lemma QuorumStep(w: World, a: Action, t: string)
    requires Inv(w) && QuorumInv(w, t) && Enabled(w, a) && IsCalm(w, a, t)
    ensures QuorumInv(Next(w, a), t)
  {
    if CreatesFor(a, t) {
      QuorumAfterCreation(w, a, t);
    } else {
      PlaneStep(w, a, t);
      FlightPlaneStep(w, a, t);
      EventsStep(w, a, t);
      if LastCreated(w.log, t).Some? {
        LastTargetStep(w, a, t);
      }
      if t in NextFlights(w, a) && NextFlights(w, a)[t].cleared && !NextFlights(w, a)[t].created {
        ClearedStep(w, a, t);
      }
    }
  }

  ghost predicate IsCalmRun(w: World, run: seq<Action>, t: string)
    requires IsRun(w, run)
    decreases run
  {
    run == [] || (IsKubeadmRollout(w.store, t) && IsCalm(w, run[0], t) && IsCalmRun(Next(w, run[0]), run[1..], t))
  }

  lemma {:induction false} QuorumRun(w: World, run: seq<Action>, t: string)
    requires Inv(w) && QuorumInv(w, t) && IsRun(w, run) && IsCalmRun(w, run, t)
    ensures QuorumInv(End(w, run), t)
    decreases run
  {
    if run != [] {
      QuorumStep(w, run[0], t);
      InvStep(w, run[0]);
      QuorumRun(Next(w, run[0]), run[1..], t);
    }
  }

  function HealthyOnes(ms: seq<Machine>, cp: ControlPlane): set<int> {
    set i | 0 <= i < |ms| && IsHealthy(ms[i], cp)
  }

  lemma AllButOne(ms: seq<Machine>, cp: ControlPlane, name: string)
    requires DistinctNames(ms) && forall m :: m in ms && !IsHealthy(m, cp) ==> m.name == name
    ensures |HealthyOnes(ms, cp)| >= |ms| - 1
  {
    var all := Indices(|ms|);
    if k :| 0 <= k < |ms| && !IsHealthy(ms[k], cp) {
      forall i | 0 <= i < |ms| && i != k ensures IsHealthy(ms[i], cp) {
        assert ms[i] in ms && ms[k] in ms;
      }
      assert HealthyOnes(ms, cp) == all - {k};
    } else {
      assert HealthyOnes(ms, cp) == all;
    }
  }

  /** From the first creation of a run on, the unhealthy machines are at most the one of the most recently
      created node task, so three or more machines keep a strict majority healthy. */
  lemma QuorumKept(w: World, run: seq<Action>, t: string)
    requires Inv(w) && IsKubeadmRollout(w.store, t) && t !in w.flights && LastCreated(w.log, t).None?
    requires IsRun(w, run) && IsCalmRun(w, run, t)
    ensures var w' := End(w, run);
      IsKubeadmRollout(w'.store, t) && (LastCreated(w'.log, t).Some? ==>
        var cp := Plane(w'.store, t);
        var ms := OwnedMachines(w'.store, cp);
        && (forall m :: m in ms && !IsHealthy(m, cp) ==> m.name == LastCreated(w'.log, t).value)
        && (|ms| >= 3 ==> 2 * |HealthyOnes(ms, cp)| > |ms|))
  {
    QuorumRun(w, run, t);
    InvRun(w, run);
    var w' := End(w, run);
    if LastCreated(w'.log, t).Some? {
      var cp := Plane(w'.store, t);
      WithLabelsDistinct(w'.store.machines, map[ClusterName := cp.labels[ClusterName], ControlPlaneName := cp.name]);
      AllButOne(OwnedMachines(w'.store, cp), cp, LastCreated(w'.log, t).value);
    }
  }
}
