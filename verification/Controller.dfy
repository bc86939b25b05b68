/** The update task controller (internal/controller/updatetask_controller.go): the loops of the source,
    proved against the functions of module Rollout. */
module Controller {
  import opened UpdateTypes
  import opened Objects
  import opened Nodes
  import opened Scopes
  import opened Status
  import opened Client
  import opened ControlPlanes
  import opened Rollout

  class UpdateTaskReconciler {
    const client: ApiServer

    constructor (client: ApiServer)
      ensures this.client == client
    {
      this.client := client;
    }

    /** One reconcile request, with its deferred function. */
    method Reconcile(name: string, calls: Calls) returns (result: Result, failed: bool)
      requires ValidStore(client.Contents())
      modifies client
      ensures var o := Reconciled(old(client.Contents()), name, calls);
        client.Contents() == o.store && result == o.result && failed == o.failed
    {
      if calls.getTask { return NO_RESULT, true; }
      if name !in client.tasks { return NO_RESULT, false; }
      if calls.taskHelper { return NO_RESULT, true; }
      var updateTask := new TaskObject(client.tasks[name]);
      result, failed := ReconcileLoaded(updateTask, calls);
      // the deferred function
      if IsTerminated(updateTask.value.state) {
        updateTask.value := updateTask.value.(finalizer := false);
      } else if !failed && IsZero(result) {
        result := result.(requeue := true);
      }
      if calls.patchTask {
        failed := true;
      } else {
        client.tasks := client.tasks[updateTask.value.name := updateTask.value];
      }
    }

    // Everything between reading the task and the deferred function.
    method ReconcileLoaded(updateTask: TaskObject, calls: Calls) returns (result: Result, failed: bool)
      modifies client, updateTask
      ensures var w := LoadedWork(old(client.Contents()), old(updateTask.value), calls);
        client.Contents() == w.store && updateTask.value == w.task && result == w.result && failed == w.failed
    {
      if !updateTask.value.finalizer {
        updateTask.value := updateTask.value.(finalizer := true);
        return CHANGED_REQUEUE_AFTER, false;
      }
      var scope := New(client, updateTask, calls);
      if scope.None? { return NO_RESULT, true; }
      ghost var pure := Scope(updateTask.value, scope.value.updateMachines, scope.value.nodeUpdateTasks);
      failed := ReconcileStatus(scope.value, calls);
      if failed { return NO_RESULT, true; }
      if AbortRequested(updateTask.value) {
        failed := ReconcileAbort(scope.value, calls);
        return NO_RESULT, failed;
      } else if updateTask.value.phase.Update? {
        result, failed := ReconcileNormal(scope.value, pure.task, calls);
        return result, failed;
      }
      return NO_RESULT, false;
    }

    method ReconcileAbort(scope: UpdateTaskScope, calls: Calls) returns (failed: bool)
      modifies client`nodeTasks
      ensures var a := AbortRun(old(client.nodeTasks), scope.nodeUpdateTasks, calls);
        client.nodeTasks == a.nodes && failed == !a.ok
    {
      for i := 0 to |scope.nodeUpdateTasks|
        invariant AbortRun(client.nodeTasks, scope.nodeUpdateTasks[i..], calls) ==
                  AbortRun(old(client.nodeTasks), scope.nodeUpdateTasks, calls)
      {
        var n := scope.nodeUpdateTasks[i];
        assert scope.nodeUpdateTasks[i..][1..] == scope.nodeUpdateTasks[i + 1..];
        var status := GetNodeUpdateTaskStatus(n);
        if status.None? { return true; }
        if !IsTerminated(status.value.state) {
          var ok := AbortNodeUpdateTask(client, n, calls);
          if !ok { return true; }
        }
      }
      return false;
    }

    // The snapshot's copy of the task is `before`; the task in memory already carries its new state.
    method ReconcileNormal(scope: UpdateTaskScope, ghost before: UpdateTask, calls: Calls)
        returns (result: Result, failed: bool)
      modifies client, scope.task
      ensures var w := NormalWork(old(client.Contents()), Scope(before, scope.updateMachines, scope.nodeUpdateTasks),
                                  old(scope.task.value), calls);
        client.Contents() == w.store && scope.task.value == w.task && result == w.result && failed == w.failed
    {
      var nodes := scope.nodeUpdateTasks;
      var nodeUpdateStatusMap: StatusMap := map[];
      for i := 0 to |nodes|
        invariant AllReadable(nodes[..i])
        invariant nodeUpdateStatusMap == Newest(Statuses(nodes[..i]))
        invariant NodeGate(nodes[i..]) == NodeGate(nodes)
        invariant unchanged(client) && unchanged(scope.task)
      {
        assert nodes[i..][1..] == nodes[i + 1..];
        var status := GetNodeUpdateTaskStatus(nodes[i]);
        if status.None? { return NO_RESULT, true; }
        StatusesStep(nodes, i);
        nodeUpdateStatusMap := AddStatus(nodeUpdateStatusMap, status.value);
        if !IsTerminated(status.value.state) {
          return NO_RESULT, false;
        } else if status.value.state.Failed? {
          return NO_RESULT, false;
        }
      }
      assert nodes[..|nodes|] == nodes;

      var t := scope.task.value;
      if t.controlPlane.Some? {
        if t.controlPlane.value.kind == KUBEADM {
          var check := PreflightCheckForKubeadmControlPlane(client, t.controlPlane.value.name, calls);
          if check.CheckFailed? { return NO_RESULT, true; }
          if !IsZero(check.result) { return check.result, false; }
        }
      }

      result, failed := CreateForNextMachine(scope, nodeUpdateStatusMap, calls);
    }

    // The loop over the machines in creation order.
    method CreateForNextMachine(scope: UpdateTaskScope, nodeUpdateStatusMap: StatusMap, calls: Calls)
        returns (result: Result, failed: bool)
      modifies client`nodeTasks, scope.task
      ensures var w := CreateWork(old(client.Contents()), scope.updateMachines, nodeUpdateStatusMap.Keys,
                                  old(scope.task.value), calls);
        client.Contents() == w.store && scope.task.value == w.task && result == w.result && failed == w.failed
    {
      var taskName := scope.task.value.name;
      var machines := SortedByCreation(scope.updateMachines);
      for i := 0 to |machines|
        invariant NextMachine(machines[i..], nodeUpdateStatusMap.Keys, taskName) ==
                  NextMachine(machines, nodeUpdateStatusMap.Keys, taskName)
        invariant unchanged(client) && unchanged(scope.task)
      {
        assert machines[i..][1..] == machines[i + 1..];
        var machine := machines[i];
        if machine.name !in nodeUpdateStatusMap {
          if !IsMachineInUpdateScope(machine, taskName) {
            continue;
          }
          var ok := CreateNodeUpdateTask(client, scope.task, machine, calls);
          if !ok { return NO_RESULT, true; }
          return CHANGED_REQUEUE_AFTER, false;
        }
      }
      return NO_RESULT, false;
    }

    method ReconcileStatus(scope: UpdateTaskScope, calls: Calls) returns (failed: bool)
      modifies client`machines, scope.task
      ensures var w := StatusWork(old(client.Contents()),
                                  Scope(old(scope.task.value), scope.updateMachines, scope.nodeUpdateTasks), calls);
        client.Contents() == w.store && scope.task.value == w.task && failed == w.failed
    {
      var nodes := scope.nodeUpdateTasks;
      var nodeUpdateStatusMap: StatusMap := map[];
      for i := 0 to |nodes|
        invariant AllReadable(nodes[..i])
        invariant nodeUpdateStatusMap == Newest(Statuses(nodes[..i]))
        invariant unchanged(client) && unchanged(scope.task)
      {
        var status := GetNodeUpdateTaskStatus(nodes[i]);
        if status.None? {
          assert nodes[i] in nodes;
          return true;
        }
        StatusesStep(nodes, i);
        nodeUpdateStatusMap := AddStatus(nodeUpdateStatusMap, status.value);
      }
      assert nodes[..|nodes|] == nodes;
      var tally := TallyMachines(scope, nodeUpdateStatusMap, calls);
      scope.task.value := scope.task.value.(state := StateFrom(scope.task.value, tally));
      return false;
    }

    // The loop over the machines: bump the counters and patch the conditions of machines in scope.
    method TallyMachines(scope: UpdateTaskScope, nodeUpdateStatusMap: StatusMap, calls: Calls) returns (tally: Tally)
      modifies client`machines
      ensures tally == Count(SortedByCreation(scope.updateMachines), nodeUpdateStatusMap, scope.task.value.name)
      ensures client.machines == PatchAll(old(client.machines), SortedByCreation(scope.updateMachines),
                                          nodeUpdateStatusMap, scope.task.value.name, calls)
    {
      var taskName := scope.task.value.name;
      tally := NO_TALLY;
      var machines := SortedByCreation(scope.updateMachines);
      for i := 0 to |machines|
        invariant tally == Count(machines[..i], nodeUpdateStatusMap, taskName)
        invariant client.machines == PatchAll(old(client.machines), machines[..i], nodeUpdateStatusMap, taskName, calls)
      {
        CountStep(machines, i, nodeUpdateStatusMap, taskName);
        PatchStep(old(client.machines), machines, i, nodeUpdateStatusMap, taskName, calls);
        tally := CountMachine(tally, machines[i], nodeUpdateStatusMap, taskName);
        PatchCondition(machines[i], nodeUpdateStatusMap, taskName, calls);
      }
      assert machines[..|machines|] == machines;
    }

    method CountMachine(before: Tally, machine: Machine, nodeUpdateStatusMap: StatusMap, taskName: string)
        returns (tally: Tally)
      ensures tally == Plus(before, Share(machine, nodeUpdateStatusMap, taskName))
    {
      tally := before;
      if machine.name in nodeUpdateStatusMap {
        match nodeUpdateStatusMap[machine.name].state {
          case Updated => tally := tally.(updated := tally.updated + 1);
          case Aborted => tally := tally.(aborted := tally.aborted + 1);
          case Failed => tally := tally.(failed := tally.failed + 1);
          case InProgress => tally := tally.(inProgress := tally.inProgress + 1);
          case Unknown => tally := tally.(inProgress := tally.inProgress + 1);
          case OtherState(_) =>
        }
        tally := tally.(total := tally.total + 1);
      } else if IsMachineInUpdateScope(machine, taskName) {
        tally := tally.(waitForUpdate := tally.waitForUpdate + 1);
        tally := tally.(total := tally.total + 1);
      }
    }

    method PatchCondition(machine: Machine, nodeUpdateStatusMap: StatusMap, taskName: string, calls: Calls)
      modifies client`machines
      ensures client.machines == PatchOne(old(client.machines), machine, nodeUpdateStatusMap, taskName, calls)
    {
      if IsMachineInUpdateScope(machine, taskName) {
        if machine.name in calls.machineHelpers { return; }
        var upToDate := machine.upToDate;
        if machine.name in nodeUpdateStatusMap {
          match nodeUpdateStatusMap[machine.name].state {
            case Updated => upToDate := IsUpToDate;
            case Aborted => upToDate := NotUpToDate("Aborted");
            case Failed => upToDate := NotUpToDate("Failed");
            case InProgress => upToDate := NotUpToDate("InProgress");
            case Unknown =>
            case OtherState(_) =>
          }
        } else {
          upToDate := NotUpToDate("WaitForUpdate");
        }
        // only a difference is sent
        if upToDate != machine.upToDate && machine.name !in calls.machinePatches {
          client.machines := PatchUpToDate(client.machines, machine, upToDate);
        }
      }
    }
  }

  lemma StatusesStep(nodes: seq<NodeTask>, i: nat)
    requires i < |nodes| && AllReadable(nodes[..i]) && IsReadable(nodes[i])
    ensures AllReadable(nodes[..i + 1])
    ensures Newest(Statuses(nodes[..i + 1])) == AddStatus(Newest(Statuses(nodes[..i])), StatusOf(nodes[i]))
  {
    assert nodes[..i + 1] == nodes[..i] + [nodes[i]];
    assert Statuses(nodes[..i + 1])[..i] == Statuses(nodes[..i]);
  }

  lemma CountStep(ms: seq<Machine>, i: nat, newest: StatusMap, taskName: string)
    requires i < |ms|
    ensures Count(ms[..i + 1], newest, taskName) ==
            Plus(Count(ms[..i], newest, taskName), Share(ms[i], newest, taskName))
  {
    assert ms[..i + 1] == ms[..i] + [ms[i]];
    CountLast(ms[..i], ms[i], newest, taskName);
  }

  lemma PatchStep(stored: seq<Machine>, ms: seq<Machine>, i: nat, newest: StatusMap, taskName: string, calls: Calls)
    requires i < |ms|
    ensures PatchAll(stored, ms[..i + 1], newest, taskName, calls) ==
            PatchOne(PatchAll(stored, ms[..i], newest, taskName, calls), ms[i], newest, taskName, calls)
  {
    assert ms[..i + 1][..i] == ms[..i];
  }
}
