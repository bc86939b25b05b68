/** The control-plane health gate (internal/controller/controlplanes/kubeadm.go). */
module ControlPlanes {
  import opened Objects
  import opened Scopes
  import opened Client

  const KUBEADM := "KubeadmControlPlane"
  const DELETE_REQUEUE_AFTER := Result(false, 30000)
  const PREFLIGHT_FAILED_REQUEUE_AFTER := Result(false, 15000)

  predicate IsEtcdManaged(cp: ControlPlane) {
    !cp.hasClusterConfiguration || !cp.externalEtcd
  }

  function RequiredConditions(cp: ControlPlane): set<ConditionType> {
    {APIServerPodHealthy, ControllerManagerPodHealthy, SchedulerPodHealthy} +
    if IsEtcdManaged(cp) then {EtcdPodHealthy, EtcdMemberHealthy} else {}
  }

  predicate IsMet(m: Machine, c: ConditionType) {
    c in m.health && !m.health[c].ConditionFalse? && !m.health[c].ConditionUnknown?
  }

  // A machine whose node is known and whose required conditions are all set, none False or Unknown.
  predicate IsHealthy(m: Machine, cp: ControlPlane) {
    m.hasNode && forall c :: c in RequiredConditions(cp) ==> IsMet(m, c)
  }

  function OwnedMachines(s: Store, cp: ControlPlane): seq<Machine>
    requires ClusterName in cp.labels
  {
    WithLabels(s.machines, map[ClusterName := cp.labels[ClusterName], ControlPlaneName := cp.name])
  }

  datatype Check = CheckFailed | Checked(result: Result)

  predicate Passes(c: Check) {
    c == Checked(NO_RESULT)
  }

  /** The gate stated over the set of machines, so that no iteration order can matter. */
  ghost function PreflightSpec(s: Store, cp: ControlPlane, excludeFor: seq<Machine>, listFails: bool): Check {
    if ClusterName !in cp.labels || listFails then CheckFailed
    else
      var ms := OwnedMachines(s, cp);
      if exists m :: m in ms && m.deleting then Checked(DELETE_REQUEUE_AFTER)
      else if exists m :: m in ms && !IsExcluded(m, excludeFor) && !IsHealthy(m, cp)
      then Checked(PREFLIGHT_FAILED_REQUEUE_AFTER)
      else Checked(NO_RESULT)
  }

  method PreflightCheckCondition(m: Machine, condition: ConditionType) returns (ok: bool)
    ensures ok <==> IsMet(m, condition)
  {
    if condition !in m.health { return false; }
    if m.health[condition].ConditionFalse? { return false; }
    if m.health[condition].ConditionUnknown? { return false; }
    return true;
  }

  // The inner loop: one error for a missing node, or one for every condition that is not met.
  method MachineErrors(machine: Machine, cp: ControlPlane, required: seq<ConditionType>, before: seq<string>)
    returns (errors: seq<string>)
    requires forall c :: c in required <==> c in RequiredConditions(cp)
    ensures errors == [] <==> before == [] && IsHealthy(machine, cp)
  {
    errors := before;
    if !machine.hasNode {
      errors := errors + [machine.name];
    } else {
      for i := 0 to |required|
        invariant errors == [] <==> before == [] && forall k :: 0 <= k < i ==> IsMet(machine, required[k])
      {
        var ok := PreflightCheckCondition(machine, required[i]);
        if !ok { errors := errors + [machine.name]; }
      }
    }
  }

  predicate IsExcluded(m: Machine, excludeFor: seq<Machine>) {
    exists e :: e in excludeFor && e.name == m.name
  }

  // The outer loop: machines in the arbitrary order of a Go map, excluded ones skipped.
  method AllMachineErrors(
    cpMachines: set<Machine>, cp: ControlPlane, required: seq<ConditionType>, excludeFor: seq<Machine>)
    returns (machineErrors: seq<string>)
    requires forall c :: c in required <==> c in RequiredConditions(cp)
    ensures machineErrors == [] <==> forall m :: m in cpMachines ==> IsExcluded(m, excludeFor) || IsHealthy(m, cp)
  {
    machineErrors := [];
    var rest := cpMachines;
    label loopmachines:
    while rest != {}
      invariant rest <= cpMachines
      invariant machineErrors == [] <==>
        forall m :: m in cpMachines && m !in rest ==> IsExcluded(m, excludeFor) || IsHealthy(m, cp)
    {
      var machine :| machine in rest;
      rest := rest - {machine};
      for i := 0 to |excludeFor|
        invariant forall k :: 0 <= k < i ==> excludeFor[k].name != machine.name
      {
        if machine.name == excludeFor[i].name {
          continue loopmachines;
        }
      }
      machineErrors := MachineErrors(machine, cp, required, machineErrors);
    }
  }

  /** The gate is exact: with its cluster label set and the list call succeeding it passes if and only if
      no owned machine is deleting and every machine that is not excluded is healthy; a deleting machine
      asks for a retry in 30 seconds, an unhealthy one for a retry in 15. The machines are visited in the
      arbitrary order of a Go map. */
  method PreflightChecks(client: ApiServer, cp: ControlPlane, excludeFor: seq<Machine>, listFails: bool)
    returns (check: Check)
    ensures check == PreflightSpec(client.Contents(), cp, excludeFor, listFails)
  {
    if ClusterName !in cp.labels { return CheckFailed; }
    if listFails { return CheckFailed; }
    var cpMachines := set m | m in OwnedMachines(client.Contents(), cp);
    assert forall m :: m in OwnedMachines(client.Contents(), cp) ==> m in cpMachines;
    if |cpMachines| == 0 { return Checked(NO_RESULT); }
    var deletingMachines := set m | m in cpMachines && m.deleting;
    if |deletingMachines| > 0 {
      var d :| d in deletingMachines;
      return Checked(DELETE_REQUEUE_AFTER);
    }
    assert forall m :: m in cpMachines ==> m !in deletingMachines;
    var allMachineHealthConditions := [APIServerPodHealthy, ControllerManagerPodHealthy, SchedulerPodHealthy];
    if IsEtcdManaged(cp) {
      allMachineHealthConditions := allMachineHealthConditions + [EtcdPodHealthy, EtcdMemberHealthy];
    }
    assert forall c :: c in allMachineHealthConditions <==> c in RequiredConditions(cp);
    var machineErrors := AllMachineErrors(cpMachines, cp, allMachineHealthConditions, excludeFor);
    if |machineErrors| > 0 { return Checked(PREFLIGHT_FAILED_REQUEUE_AFTER); }
    return Checked(NO_RESULT);
  }

  ghost function KubeadmSpec(s: Store, name: string, calls: Calls): Check {
    if calls.getControlPlane || name !in s.controlPlanes then CheckFailed
    else PreflightSpec(s, s.controlPlanes[name], [], calls.listControlPlaneMachines)
  }

  method PreflightCheckForKubeadmControlPlane(client: ApiServer, name: string, calls: Calls) returns (check: Check)
    ensures check == KubeadmSpec(client.Contents(), name, calls)
  {
    if calls.getControlPlane || name !in client.controlPlanes { return CheckFailed; }
    check := PreflightChecks(client, client.controlPlanes[name], [], calls.listControlPlaneMachines);
  }

  /** The gate as the rollout uses it: only a KubeadmControlPlane is checked. */
  ghost function GateSpec(s: Store, t: UpdateTask, calls: Calls): Check {
    if t.controlPlane.Some? && t.controlPlane.value.kind == KUBEADM
    then KubeadmSpec(s, t.controlPlane.value.name, calls)
    else Checked(NO_RESULT)
  }

  predicate GateApplies(s: Store, t: UpdateTask) {
    && t.controlPlane.Some? && t.controlPlane.value.kind == KUBEADM
    && t.controlPlane.value.name in s.controlPlanes
    && ClusterName in s.controlPlanes[t.controlPlane.value.name].labels
  }

  /** Both directions, for the check as the rollout calls it. */
  lemma GateExact(s: Store, t: UpdateTask, calls: Calls)
    requires GateApplies(s, t) && !calls.getControlPlane && !calls.listControlPlaneMachines
    ensures var cp := s.controlPlanes[t.controlPlane.value.name];
      Passes(GateSpec(s, t, calls)) <==>
        forall m :: m in OwnedMachines(s, cp) ==> !m.deleting && IsHealthy(m, cp)
  {
    var cp := s.controlPlanes[t.controlPlane.value.name];
    if !Passes(GateSpec(s, t, calls)) {
      assert exists m :: m in OwnedMachines(s, cp) && (m.deleting || !IsHealthy(m, cp));
    }
  }

  /******* The gate in the fields of control plane and machines *******/

  // Machines of the control plane, by their labels.
  predicate IsOwnedMachine(s: Store, cp: ControlPlane, m: Machine)
    requires ClusterName in cp.labels
  {
    && m in s.machines
    && ClusterName in m.labels && m.labels[ClusterName] == cp.labels[ClusterName]
    && ControlPlaneName in m.labels && m.labels[ControlPlaneName] == cp.name
  }

  // A node, and the pod conditions, and those of etcd unless it is external, there and neither False nor Unknown.
  predicate HasAllConditions(m: Machine, externalEtcd: bool) {
    && m.hasNode
    && (forall c :: c in {APIServerPodHealthy, ControllerManagerPodHealthy, SchedulerPodHealthy} ==>
          c in m.health && m.health[c] != ConditionFalse && m.health[c] != ConditionUnknown)
    && (externalEtcd ||
        forall c :: c in {EtcdPodHealthy, EtcdMemberHealthy} ==>
          c in m.health && m.health[c] != ConditionFalse && m.health[c] != ConditionUnknown)
  }

  /** This is what a healthy machine is. */
  lemma HealthyMeans(m: Machine, cp: ControlPlane)
    ensures IsHealthy(m, cp) <==> HasAllConditions(m, cp.hasClusterConfiguration && cp.externalEtcd)
  {
    var pods := {APIServerPodHealthy, ControllerManagerPodHealthy, SchedulerPodHealthy};
    var etcd := {EtcdPodHealthy, EtcdMemberHealthy};
    assert forall c :: c in RequiredConditions(cp) <==>
      c in pods || (c in etcd && !(cp.hasClusterConfiguration && cp.externalEtcd));
  }

  lemma OwnedMeans(s: Store, cp: ControlPlane, m: Machine)
    requires ClusterName in cp.labels
    ensures m in OwnedMachines(s, cp) <==> IsOwnedMachine(s, cp, m)
  {
  }

  /** The check of one control plane in full, with machines that are excluded from the check of conditions, though not
      from that of deletion: a control plane without cluster label, or whose machines cannot be listed, is an error; a
      machine on its way out asks for a retry in 30 seconds; a machine without node, or with a required condition
      missing, False or Unknown, for one in 15. */
  lemma PreflightOutcome(s: Store, cp: ControlPlane, excludeFor: seq<Machine>, listFails: bool)
    ensures PreflightSpec(s, cp, excludeFor, listFails) ==
      if ClusterName !in cp.labels || listFails then CheckFailed
      else if exists m :: IsOwnedMachine(s, cp, m) && m.deleting then Checked(Result(false, 30000))
      else if exists m ::
        && IsOwnedMachine(s, cp, m) && (forall e :: e in excludeFor ==> e.name != m.name)
        && !HasAllConditions(m, cp.hasClusterConfiguration && cp.externalEtcd)
      then Checked(Result(false, 15000))
      else Checked(Result(false, 0))
  {
    if ClusterName in cp.labels {
      forall m ensures IsOwnedMachine(s, cp, m) <==> m in OwnedMachines(s, cp) {
        OwnedMeans(s, cp, m);
      }
      forall m: Machine
        ensures IsHealthy(m, cp) <==> HasAllConditions(m, cp.hasClusterConfiguration && cp.externalEtcd)
      {
        HealthyMeans(m, cp);
      }
    }
  }

  /** The outcome of the gate in full, for a store, a task and the calls that fail: anything but a
      KubeadmControlPlane passes; a control plane that cannot be read is an error; and one that can is checked, with
      no machine excluded. */
  lemma GateOutcome(s: Store, t: UpdateTask, calls: Calls)
    ensures GateSpec(s, t, calls) ==
      if t.controlPlane.None? || t.controlPlane.value.kind != "KubeadmControlPlane" then Checked(Result(false, 0))
      else if calls.getControlPlane || t.controlPlane.value.name !in s.controlPlanes then CheckFailed
      else
        var cp := s.controlPlanes[t.controlPlane.value.name];
        if ClusterName !in cp.labels || calls.listControlPlaneMachines then CheckFailed
        else if exists m :: IsOwnedMachine(s, cp, m) && m.deleting then Checked(Result(false, 30000))
        else if exists m ::
          IsOwnedMachine(s, cp, m) && !HasAllConditions(m, cp.hasClusterConfiguration && cp.externalEtcd)
        then Checked(Result(false, 15000))
        else Checked(Result(false, 0))
  {
    if t.controlPlane.Some? && t.controlPlane.value.name in s.controlPlanes {
      PreflightOutcome(s, s.controlPlanes[t.controlPlane.value.name], [], calls.listControlPlaneMachines);
    }
  }
}
