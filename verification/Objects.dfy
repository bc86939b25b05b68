/** The objects of one namespace, as the API server stores them.
    Every list call of the source is restricted to the namespace of the task or of the request,
    so objects of different namespaces never meet. */
module Objects {
  import opened UpdateTypes

  datatype Option<+T> = None | Some(value: T)

  datatype LabelKey =
    | ClusterName
    | ControlPlaneLabel
    | ControlPlaneName
    | DeploymentName
    | UpdateTaskName
    | OtherLabel(text: string)

  type Labels = map<LabelKey, string>

  // The meaning of client.MatchingLabels.
  predicate Matches(labels: Labels, selector: Labels) {
    forall k :: k in selector ==> k in labels && labels[k] == selector[k]
  }

  datatype AnnotationKey = UpdateTaskAnnotation | OtherAnnotation(text: string)

  datatype ObjectRef = ObjectRef(apiVersion: string, kind: string, name: string)

  datatype Gvk = Gvk(apiVersion: string, kind: string)

  datatype ConditionType =
    | APIServerPodHealthy
    | ControllerManagerPodHealthy
    | SchedulerPodHealthy
    | EtcdPodHealthy
    | EtcdMemberHealthy

  datatype ConditionStatus = ConditionTrue | ConditionFalse | ConditionUnknown | OtherStatus(text: string)

  // The MachineUpToDate condition; the reason of a False one is kept.
  datatype UpToDate = NotSet | IsUpToDate | NotUpToDate(reason: string)

  datatype MachineSpec = MachineSpec(version: string, bootstrapConfig: string, infraMachine: string)

  datatype Machine = Machine(
    name: string,
    created: int,
    labels: Labels,
    annotations: Option<map<AnnotationKey, string>>,  // None is Go's nil map
    deleting: bool,
    hasNode: bool,
    health: map<ConditionType, ConditionStatus>,
    upToDate: UpToDate)

  // The task whose rollout the machine is part of.
  function ScopeOf(m: Machine): Option<string> {
    if m.annotations.Some? && UpdateTaskAnnotation in m.annotations.value
    then Some(m.annotations.value[UpdateTaskAnnotation])
    else None
  }

  predicate IsMachineInUpdateScope(m: Machine, taskName: string) {
    ScopeOf(m) == Some(taskName)
  }

  // An unstructured node update task; None is a field that is missing or cannot be decoded.
  datatype NodeTask = NodeTask(
    gvk: Gvk,
    name: string,
    labels: Labels,
    created: int,
    newMachine: MachineSpec,
    machineName: Option<string>,
    phase: Option<Phase>,
    state: Option<State>)

  datatype UpdateTask = UpdateTask(
    name: string,
    labels: Labels,
    cluster: string,
    controlPlane: Option<ObjectRef>,
    deployment: Option<string>,
    newMachine: MachineSpec,
    templateRef: ObjectRef,
    templateLabels: Option<Labels>,  // None is Go's nil map
    phase: Phase,
    deleting: bool,
    finalizer: bool,
    state: State)

  // An abort is in force: by deletion or by the target phase.
  predicate AbortRequested(t: UpdateTask) {
    t.deleting || t.phase.Abort?
  }

  datatype ControlPlane = ControlPlane(
    name: string,
    labels: Labels,
    hasClusterConfiguration: bool,
    externalEtcd: bool)

  datatype Store = Store(
    clusters: map<string, bool>,  // name to "is being deleted"
    controlPlanes: map<string, ControlPlane>,
    machines: seq<Machine>,
    nodeTasks: seq<NodeTask>,
    tasks: map<string, UpdateTask>,
    templates: map<ObjectRef, Labels>,
    policies: seq<ObjectRef>)

  predicate DistinctNames(ms: seq<Machine>) {
    forall i, j :: 0 <= i < |ms| && 0 <= j < |ms| && ms[i].name == ms[j].name ==> i == j
  }

  predicate SameNode(a: NodeTask, b: NodeTask) {
    a.gvk == b.gvk && a.name == b.name
  }

  predicate DistinctNodes(ns: seq<NodeTask>) {
    forall i, j :: 0 <= i < |ns| && 0 <= j < |ns| && SameNode(ns[i], ns[j]) ==> i == j
  }

  // What the API server guarantees of a namespace.
  predicate ValidStore(s: Store) {
    && DistinctNames(s.machines)
    && DistinctNodes(s.nodeTasks)
    && (forall t :: t in s.tasks ==> s.tasks[t].name == t)
  }

  // A fresh object enters the list order anywhere, as generated names sort anywhere.
  function Insert<T>(s: seq<T>, at: nat, x: T): (r: seq<T>)
    ensures |r| == |s| + 1
  {
    var k := if at <= |s| then at else |s|;
    s[..k] + [x] + s[k..]
  }

  function Indices(n: nat): (r: set<int>)
    ensures |r| == n && forall i :: i in r <==> 0 <= i < n
  {
    if n == 0 then {} else Indices(n - 1) + {n - 1}
  }

  // The part of ctrl.Result the source uses; durations in milliseconds.
  datatype Result = Result(requeue: bool, afterMs: nat)

  predicate IsZero(r: Result) {
    !r.requeue && r.afterMs == 0
  }

  const NO_RESULT := Result(false, 0)
  const CHANGED_REQUEUE_AFTER := Result(false, 100)

  // Which calls of one reconcile fail (true: the call fails), and what the server generates.
  datatype Calls = Calls(
    getTask: bool,
    taskHelper: bool,
    getCluster: bool,
    listMachines: bool,
    listNodeTasks: bool,
    scopeHelper: bool,
    machineHelpers: set<string>,
    machinePatches: set<string>,
    abortPatches: set<string>,
    getControlPlane: bool,
    listControlPlaneMachines: bool,
    getTemplate: bool,
    buildNodeTask: bool,
    createNodeTask: bool,
    patchTask: bool,
    generated: Generated)

  // Name, creation time and list position of a node task to be created.
  datatype Generated = Generated(name: string, created: int, position: nat)

  // All calls succeed.
  const NO_FAILURES := Calls(false, false, false, false, false, false, {}, {}, {},
                             false, false, false, false, false, false, Generated("", 0, 0))
}
