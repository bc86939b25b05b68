/** The API server as the controllers see it: one namespace of objects, written in place. */
module Client {
  import opened UpdateTypes
  import opened Objects
  import opened Nodes
  import opened Scopes

  class ApiServer {
    var clusters: map<string, bool>
    var controlPlanes: map<string, ControlPlane>
    var machines: seq<Machine>
    var nodeTasks: seq<NodeTask>
    var tasks: map<string, UpdateTask>
    var templates: map<ObjectRef, Labels>
    var policies: seq<ObjectRef>

    function Contents(): Store
      reads this
    {
      Store(clusters, controlPlanes, machines, nodeTasks, tasks, templates, policies)
    }
  }

  /** The update task in memory: the pointer that Reconcile, its deferred function and the scope share. */
  class TaskObject {
    var value: UpdateTask

    constructor (t: UpdateTask)
      ensures value == t
    {
      value := t;
    }
  }

  /** pkg/nodes/nodeupdatetask.go: read the status of one node task. */
  method GetNodeUpdateTaskStatus(n: NodeTask) returns (status: Option<NodeStatus>)
    ensures status.Some? <==> n.machineName.Some? && n.phase.Some?
    ensures status.Some? ==> status.value == StatusOf(n)
    ensures status.Some? ==>
      status.value == NodeStatus(n.created, n.machineName.value, n.phase.value,
                                 if n.state.Some? then n.state.value else Unknown)
  {
    var created := n.created;
    if n.machineName.None? { return None; }
    var machine := n.machineName.value;
    if n.phase.None? { return None; }
    var phase := n.phase.value;
    var state := Unknown;
    if n.state.Some? { state := n.state.value; }
    return Some(NodeStatus(created, machine, phase, state));
  }

  method AbortNodeUpdateTask(client: ApiServer, n: NodeTask, calls: Calls) returns (ok: bool)
    modifies client`nodeTasks
    ensures ok <==> n.name !in calls.abortPatches
    ensures client.nodeTasks == if ok then SetAbort(old(client.nodeTasks), n) else old(client.nodeTasks)
  {
    ok := n.name !in calls.abortPatches;
    if ok { client.nodeTasks := SetAbort(client.nodeTasks, n); }
  }

  method CreateNodeUpdateTask(client: ApiServer, task: TaskObject, machine: Machine, calls: Calls) returns (ok: bool)
    modifies client`nodeTasks, task
    ensures var c := Create(old(client.Contents()), old(task.value), machine.name, calls);
      client.Contents() == c.store && task.value == c.task && ok == c.ok
  {
    var t := task.value;
    if calls.getTemplate || t.templateRef !in client.templates { return false; }
    var labels: Labels := map[];
    if t.templateLabels.Some? { labels := t.templateLabels.value; }
    labels := labels[ClusterName := t.cluster];
    labels := labels[UpdateTaskName := t.name];
    if t.templateLabels.Some? { task.value := t.(templateLabels := Some(labels)); }

    if calls.buildNodeTask { return false; }
    var g := calls.generated;
    var n := NodeTask(NodeGvk(t.templateRef), g.name, client.templates[t.templateRef] + labels, g.created,
                      t.newMachine, None, None, None);
    n := n.(phase := Some(Update));
    n := n.(machineName := Some(machine.name));
    if calls.createNodeTask || NodeExists(client.nodeTasks, n) { return false; }
    client.nodeTasks := Insert(client.nodeTasks, g.position, n);
    return true;
  }

  /** pkg/scopes/updatetask_scope.go: the snapshot holds the shared task object. */
  datatype UpdateTaskScope = UpdateTaskScope(
    task: TaskObject,
    updateMachines: seq<Machine>,
    nodeUpdateTasks: seq<NodeTask>)

  method New(client: ApiServer, task: TaskObject, calls: Calls) returns (scope: Option<UpdateTaskScope>)
    ensures scope.Some? <==> NewScope(client.Contents(), task.value, calls).Some?
    ensures scope.Some? ==>
      && scope.value.task == task
      && NewScope(client.Contents(), task.value, calls).value ==
         Scope(task.value, scope.value.updateMachines, scope.value.nodeUpdateTasks)
  {
    var t := task.value;
    if calls.getCluster || t.cluster !in client.clusters { return None; }
    var machines;
    if t.controlPlane.Some? {
      if calls.listMachines { return None; }
      machines := WithLabels(client.machines, map[ClusterName := t.cluster, ControlPlaneLabel := ""]);
    } else if t.deployment.Some? {
      if calls.listMachines { return None; }
      machines := WithLabels(client.machines, map[ClusterName := t.cluster, DeploymentName := t.deployment.value]);
    } else {
      return None;
    }
    if calls.listNodeTasks { return None; }
    var items := Listed(client.nodeTasks, KeyOf(t));
    var nodeUpdateTasks: seq<NodeTask> := [];
    for i := 0 to |items|
      invariant nodeUpdateTasks == items[..i]
    {
      nodeUpdateTasks := nodeUpdateTasks + [items[i]];
    }
    if calls.scopeHelper { return None; }
    return Some(UpdateTaskScope(task, machines, nodeUpdateTasks));
  }
}
