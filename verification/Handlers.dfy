/** The lifecycle handler (internal/handlers/lifecycle/handlers.go): abort the tasks that are superseded,
    take their machines over, create the new task. */
module Handlers {
  import opened UpdateTypes
  import opened Objects
  import opened Nodes
  import opened Scopes
  import opened Client
  import opened Protocol

  datatype Request = Request(cluster: Option<string>, controlPlane: Option<ObjectRef>, newMachine: MachineSpec)

  // Which calls of one request fail, the order in which tasks are listed, and the random part of a name.
  datatype HandlerCalls = HandlerCalls(
    getCluster: bool,
    listTasks: bool,
    abortPatches: set<string>,
    listMachines: bool,
    machineHelpers: set<string>,
    machinePatches: set<string>,
    listPolicies: bool,
    createTask: bool,
    taskOrder: seq<string>,
    random: string)

  // Panicked is a nil map or a nil pointer that the source dereferences.
  datatype Answer = Accepted | Rejected | Panicked

  predicate IsListing(order: seq<string>, tasks: map<string, UpdateTask>) {
    && (forall t :: t in tasks ==> t in order)
    && forall i, j :: 0 <= i < |order| && 0 <= j < |order| && order[i] == order[j] ==> i == j
  }

  function NewTaskName(cluster: string, calls: HandlerCalls): string {
    cluster + "-update-" + calls.random
  }

  function ControlPlaneSelector(cluster: string): Labels {
    map[ClusterName := cluster, ControlPlaneLabel := ""]
  }

  // Listed by the label, and about the cluster of the request.
  predicate IsAbout(t: UpdateTask, cluster: string) {
    Matches(t.labels, map[ClusterName := cluster]) && t.cluster == cluster
  }

  predicate IsSuperseded(t: UpdateTask, cluster: string, controlPlane: string) {
    && IsAbout(t, cluster)
    && t.controlPlane.Some? && t.controlPlane.value.name == controlPlane
    && t.state.InProgress?
  }

  datatype Aborts = Aborts(tasks: map<string, UpdateTask>, stop: Option<Answer>)

  function AbortOld(
    tasks: map<string, UpdateTask>, order: seq<string>, cluster: string, controlPlane: string, calls: HandlerCalls
  ): Aborts
    decreases order
  {
    if order == [] then Aborts(tasks, None)
    else
      var t := order[0];
      if t !in tasks || !IsAbout(tasks[t], cluster) then AbortOld(tasks, order[1..], cluster, controlPlane, calls)
      else if tasks[t].controlPlane.None? then Aborts(tasks, Some(Panicked))
      else if !IsSuperseded(tasks[t], cluster, controlPlane)
      then AbortOld(tasks, order[1..], cluster, controlPlane, calls)
      else if t in calls.abortPatches then Aborts(tasks, Some(Rejected))
      else AbortOld(tasks[t := tasks[t].(phase := Abort)], order[1..], cluster, controlPlane, calls)
  }

  datatype Annotations = Annotations(machines: seq<Machine>, stop: Option<Answer>)

  // A failed patch ends the call with the wrapped nil error of the helper: the request is accepted.
  function AnnotateAll(stored: seq<Machine>, todo: seq<Machine>, taskName: string, calls: HandlerCalls): Annotations
    decreases todo
  {
    if todo == [] then Annotations(stored, None)
    else if todo[0].name in calls.machineHelpers then Annotations(stored, Some(Rejected))
    else if todo[0].annotations.None? then Annotations(stored, Some(Panicked))
    else if todo[0].name in calls.machinePatches then Annotations(stored, Some(Accepted))
    else AnnotateAll(AnnotateListed(stored, todo[0], taskName), todo[1..], taskName, calls)
  }

  function NewTask(cluster: string, request: Request, template: ObjectRef, calls: HandlerCalls): UpdateTask {
    UpdateTask(NewTaskName(cluster, calls), map[ClusterName := cluster], cluster, request.controlPlane, None,
               request.newMachine, template, None, Update, false, false, Unknown)
  }

  datatype Handling = Handling(store: Store, answer: Answer)

  function CreateNew(s: Store, cluster: string, request: Request, calls: HandlerCalls): Handling {
    var name := NewTaskName(cluster, calls);
    if calls.listPolicies || s.policies == [] || calls.createTask || name in s.tasks then Handling(s, Rejected)
    else Handling(s.(tasks := s.tasks[name := NewTask(cluster, request, s.policies[0], calls)]), Accepted)
  }

  function TakeOver(s: Store, cluster: string, request: Request, calls: HandlerCalls): Handling {
    if calls.listMachines then Handling(s, Rejected)
    else
      var todo := WithLabels(s.machines, ControlPlaneSelector(cluster));
      var a := AnnotateAll(s.machines, todo, NewTaskName(cluster, calls), calls);
      var s1 := s.(machines := a.machines);
      if a.stop.Some? then Handling(s1, a.stop.value) else CreateNew(s1, cluster, request, calls)
  }

  predicate IsAcceptable(s: Store, request: Request, calls: HandlerCalls) {
    && request.cluster.Some? && !calls.getCluster && request.cluster.value in s.clusters
    && !s.clusters[request.cluster.value] && request.controlPlane.Some? && !calls.listTasks
  }

  function Handled(s: Store, request: Request, calls: HandlerCalls): Handling {
    if !IsAcceptable(s, request, calls) then Handling(s, Rejected)
    else
      var a := AbortOld(s.tasks, calls.taskOrder, request.cluster.value, request.controlPlane.value.name, calls);
      var s1 := s.(tasks := a.tasks);
      if a.stop.Some? then Handling(s1, a.stop.value) else TakeOver(s1, request.cluster.value, request, calls)
  }

  class ExtensionHandlers {
    const client: ApiServer

    constructor (client: ApiServer)
      ensures this.client == client
    {
      this.client := client;
    }

    method DoControlPlaneExternalUpdate(request: Request, calls: HandlerCalls) returns (answer: Answer)
      modifies client
      ensures client.Contents() == Handled(old(client.Contents()), request, calls).store
      ensures answer == Handled(old(client.Contents()), request, calls).answer
    {
      if request.cluster.None? { return Rejected; }
      var cluster := request.cluster.value;
      if calls.getCluster || cluster !in client.clusters { return Rejected; }
      if client.clusters[cluster] { return Rejected; }
      if request.controlPlane.None? { return Rejected; }
      if calls.listTasks { return Rejected; }
      var stop := AbortSuperseded(cluster, request.controlPlane.value.name, calls);
      if stop.Some? { return stop.value; }
      answer := TakeMachinesOver(cluster, request, calls);
    }

    method AbortSuperseded(cluster: string, controlPlane: string, calls: HandlerCalls) returns (stop: Option<Answer>)
      modifies client`tasks
      ensures Aborts(client.tasks, stop) == AbortOld(old(client.tasks), calls.taskOrder, cluster, controlPlane, calls)
    {
      var order := calls.taskOrder;
      for i := 0 to |order|
        invariant AbortOld(client.tasks, order[i..], cluster, controlPlane, calls) ==
                  AbortOld(old(client.tasks), order, cluster, controlPlane, calls)
      {
        assert order[i..][1..] == order[i + 1..];
        if order[i] in client.tasks && IsAbout(client.tasks[order[i]], cluster) {
          var task := client.tasks[order[i]];
          if task.controlPlane.None? { return Some(Panicked); }
          if task.controlPlane.value.name == controlPlane && task.state.InProgress? {
            if order[i] in calls.abortPatches { return Some(Rejected); }
            client.tasks := client.tasks[order[i] := task.(phase := Abort)];
          }
        }
      }
      return None;
    }

    method TakeMachinesOver(cluster: string, request: Request, calls: HandlerCalls) returns (answer: Answer)
      modifies client`machines, client`tasks
      ensures client.Contents() == TakeOver(old(client.Contents()), cluster, request, calls).store
      ensures answer == TakeOver(old(client.Contents()), cluster, request, calls).answer
    {
      var newTaskName := NewTaskName(cluster, calls);
      if calls.listMachines { return Rejected; }
      var machines := WithLabels(client.machines, ControlPlaneSelector(cluster));
      var stop := AnnotateMachines(machines, newTaskName, calls);
      if stop.Some? { return stop.value; }
      if calls.listPolicies { return Rejected; }
      if client.policies == [] { return Rejected; }
      var newTask := NewTask(cluster, request, client.policies[0], calls);
      if calls.createTask || newTaskName in client.tasks { return Rejected; }
      client.tasks := client.tasks[newTaskName := newTask];
      return Accepted;
    }

    method AnnotateMachines(machines: seq<Machine>, newTaskName: string, calls: HandlerCalls)
      returns (stop: Option<Answer>)
      modifies client`machines
      ensures Annotations(client.machines, stop) == AnnotateAll(old(client.machines), machines, newTaskName, calls)
    {
      for i := 0 to |machines|
        invariant AnnotateAll(client.machines, machines[i..], newTaskName, calls) ==
                  AnnotateAll(old(client.machines), machines, newTaskName, calls)
      {
        assert machines[i..][1..] == machines[i + 1..];
        var machine := machines[i];
        if machine.name in calls.machineHelpers { return Some(Rejected); }
        if machine.annotations.None? { return Some(Panicked); }
        if machine.name in calls.machinePatches { return Some(Accepted); }
        client.machines := AnnotateListed(client.machines, machine, newTaskName);
      }
      return None;
    }
  }
}
