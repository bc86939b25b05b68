/** The rollout as a protocol over the shared store. A reconcile is a flight: it takes one snapshot and
    then writes piece by piece, with steps of the other actors in between: node providers, the lifecycle
    handler, users, and the machines themselves. A flight patches machines before it creates, sends its
    patches and aborts in any order, and may stop at any point, so every failure and every crash of the
    source is among its behaviours. A request to the handler likewise lists machines first and annotates
    them one by one later. */
module Protocol {
  import opened UpdateTypes
  import opened Objects
  import opened Nodes
  import opened Scopes
  import opened Status
  import opened ControlPlanes
  import opened Rollout

  // What reconciles did to machines and node tasks, in order.
  datatype Event =
    | Created(task: string, machine: string)
    | Patched(task: string, machine: string)
    | AbortSent(task: string, node: string)

  datatype Flight = Flight(scope: Scope, cleared: bool, created: bool)

  // A request holds, under the name of the task it will create, the listed machines it has yet to annotate.
  datatype World = World(
    store: Store,
    flights: map<string, Flight>,
    requests: map<string, set<Machine>>,
    log: seq<Event>)

  datatype EnvAction =
    | MoveNode(index: nat, state: State)           // a node provider reports
    | SetPhase(task: string, phase: Phase)         // the handler or a user
    | Delete(task: string)
    | ListMachines(newName: string, selector: Labels)  // the handler, for a task it is about to create
    | Annotate(newName: string, listed: Machine)
    | EndRequest(newName: string)
    | AddTask(newTask: UpdateTask)
    | ChangeMachine(index: nat, machine: Machine)  // health, node reference, deletion
    | JoinMachine(machine: Machine)
    | LeaveMachine(index: nat)

  datatype Action =
    | Environment(env: EnvAction)
    | AddFinalizer(task: string)
    | Begin(task: string)
    | PatchMachine(task: string, machine: Machine)
    | SendAbort(task: string, node: NodeTask)
    | PassGate(task: string)
    | CreateNode(task: string, generated: Generated)
    | Finish(task: string, marked: bool)
    | Drop(task: string)

  // A store with nothing in flight.
  function Initial(s: Store): World {
    World(s, map[], map[], [])
  }

  /******* The environment *******/

  function Reannotated(m: Machine, taskName: string): Machine {
    var annotations := if m.annotations.Some? then m.annotations.value else map[];
    m.(annotations := Some(annotations[UpdateTaskAnnotation := taskName]), upToDate := NotSet)
  }

  // The handler's patch: computed from the listed copy, so a condition that was not listed is not deleted.
  function Annotated(m: Machine, listed: Machine, taskName: string): Machine {
    Reannotated(m, taskName).(upToDate := Merged(m.upToDate, listed.upToDate, NotSet))
  }

  function AnnotateListed(ms: seq<Machine>, listed: Machine, taskName: string): (r: seq<Machine>)
    ensures |r| == |ms|
  {
    seq(|ms|, i requires 0 <= i < |ms| =>
      if ms[i].name == listed.name then Annotated(ms[i], listed, taskName) else ms[i])
  }

  predicate EnvEnabled(w: World, e: EnvAction) {
    var s := w.store;
    match e
    // terminal states of node tasks are stable
    case MoveNode(i, st) => i < |s.nodeTasks| && !IsTerminated(StateOf(s.nodeTasks[i]))
    case SetPhase(t, phase) => t in s.tasks
    case Delete(t) => t in s.tasks
    // generated task names are fresh
    case ListMachines(t, _) => t !in s.tasks && t !in w.requests
    case Annotate(t, m) => t !in s.tasks && t in w.requests && m in w.requests[t]
    case EndRequest(t) => t in w.requests
    case AddTask(t) =>
      && t.name !in s.tasks && t.state.Unknown? && !t.finalizer
      && forall n :: n in s.nodeTasks ==> !BelongsTo(n, KeyOf(t))
    case ChangeMachine(i, m) =>
      && i < |s.machines|
      && m == s.machines[i].(deleting := m.deleting, hasNode := m.hasNode, health := m.health)
    // only the handler writes the scope annotation, only reconciles the condition
    case JoinMachine(m) => NamesApart(s.machines, m) && ScopeOf(m).None? && m.upToDate.NotSet?
    case LeaveMachine(i) => i < |s.machines|
  }

  function EnvNodes(w: World, e: EnvAction): seq<NodeTask>
    requires EnvEnabled(w, e)
  {
    var s := w.store;
    match e
    case MoveNode(i, st) => s.nodeTasks[i := s.nodeTasks[i].(state := Some(st))]
    case _ => s.nodeTasks
  }

  function EnvTasks(w: World, e: EnvAction): map<string, UpdateTask>
    requires EnvEnabled(w, e)
  {
    var s := w.store;
    match e
    case SetPhase(t, phase) => s.tasks[t := s.tasks[t].(phase := phase)]
    case Delete(t) => s.tasks[t := s.tasks[t].(deleting := true)]
    case AddTask(t) => s.tasks[t.name := t]
    case _ => s.tasks
  }

  function EnvMachines(w: World, e: EnvAction): seq<Machine>
    requires EnvEnabled(w, e)
  {
    var s := w.store;
    match e
    case Annotate(t, m) => AnnotateListed(s.machines, m, t)
    case ChangeMachine(i, m) => s.machines[i := m]
    case JoinMachine(m) => s.machines + [m]
    case LeaveMachine(i) => s.machines[..i] + s.machines[i + 1..]
    case _ => s.machines
  }

  function EnvRequests(w: World, e: EnvAction): map<string, set<Machine>>
    requires EnvEnabled(w, e)
  {
    match e
    case ListMachines(t, selector) => w.requests[t := set m | m in WithLabels(w.store.machines, selector)]
    case Annotate(t, m) => w.requests[t := w.requests[t] - {m}]
    case EndRequest(t) => w.requests - {t}
    case _ => w.requests
  }

  /******* The reconciles *******/

  // The machine this flight would create a node task for.
  function Target(scope: Scope): Option<Machine> {
    NextMachine(SortedByCreation(scope.machines), NewestOf(scope.nodes).Keys, scope.task.name)
  }

  ghost predicate GateOpen(s: Store, t: UpdateTask) {
    Passes(GateSpec(s, t, NO_FAILURES))
  }

  function NodeFor(w: World, f: Flight, g: Generated): NodeTask
    requires Target(f.scope).Some? && f.scope.task.templateRef in w.store.templates
  {
    NewNodeTask(f.scope.task, Target(f.scope).value.name, w.store.templates[f.scope.task.templateRef], g)
  }

  ghost predicate Enabled(w: World, a: Action) {
    match a
    case Environment(e) => EnvEnabled(w, e)
    case AddFinalizer(t) => t in w.store.tasks && t !in w.flights && !IsTerminated(w.store.tasks[t].state)
    // one reconcile at a time per task
    case Begin(t) =>
      && t in w.store.tasks && t !in w.flights && w.store.tasks[t].finalizer
      && HasScope(w.store, w.store.tasks[t])
      && AllReadable(ScopeFor(w.store, w.store.tasks[t]).nodes)
    case PatchMachine(t, m) =>
      && t in w.flights && !w.flights[t].created
      && m in w.flights[t].scope.machines && IsMachineInUpdateScope(m, t)
      && ConditionFor(m, NewestOf(w.flights[t].scope.nodes)) != m.upToDate
    case SendAbort(t, n) =>
      && t in w.flights && AbortRequested(w.flights[t].scope.task)
      && n in w.flights[t].scope.nodes && !IsTerminated(StateOf(n))
    case PassGate(t) =>
      && t in w.flights
      && !AbortRequested(w.flights[t].scope.task) && w.flights[t].scope.task.phase.Update?
      && NodeGate(w.flights[t].scope.nodes).Open?
      && GateOpen(w.store, w.flights[t].scope.task)
    case CreateNode(t, g) =>
      && t in w.flights && w.flights[t].cleared && !w.flights[t].created
      && Target(w.flights[t].scope).Some? && w.flights[t].scope.task.templateRef in w.store.templates
      && !NodeExists(w.store.nodeTasks, NodeFor(w, w.flights[t], g))
    case Finish(t, marked) => t in w.flights && t in w.store.tasks && AllReadable(w.flights[t].scope.nodes)
    case Drop(t) => t in w.flights
  }

  // The deferred patch sends the differences: state, finalizer, and the labels when they were marked.
  function FinishedTask(t: UpdateTask, scope: Scope, marked: bool): UpdateTask
    requires AllReadable(scope.nodes)
  {
    var t' := if marked then MarkTask(t) else t;
    var state := StatusState(scope);
    t'.(state := state, finalizer := t.finalizer && !IsTerminated(state))
  }

  ghost function NextNodes(w: World, a: Action): seq<NodeTask>
    requires Enabled(w, a)
  {
    match a
    case Environment(e) => EnvNodes(w, e)
    case SendAbort(t, n) => SetAbort(w.store.nodeTasks, n)
    case CreateNode(t, g) => Insert(w.store.nodeTasks, g.position, NodeFor(w, w.flights[t], g))
    case _ => w.store.nodeTasks
  }

  ghost function NextTasks(w: World, a: Action): map<string, UpdateTask>
    requires Enabled(w, a)
  {
    match a
    case Environment(e) => EnvTasks(w, e)
    case AddFinalizer(t) => w.store.tasks[t := w.store.tasks[t].(finalizer := true)]
    case Finish(t, marked) => w.store.tasks[t := FinishedTask(w.store.tasks[t], w.flights[t].scope, marked)]
    case _ => w.store.tasks
  }

  ghost function NextMachines(w: World, a: Action): seq<Machine>
    requires Enabled(w, a)
  {
    match a
    case Environment(e) => EnvMachines(w, e)
    case PatchMachine(t, m) =>
      PatchUpToDate(w.store.machines, m, ConditionFor(m, NewestOf(w.flights[t].scope.nodes)))
    case _ => w.store.machines
  }

  ghost function NextFlights(w: World, a: Action): map<string, Flight>
    requires Enabled(w, a)
  {
    match a
    case Begin(t) => w.flights[t := Flight(ScopeFor(w.store, w.store.tasks[t]), false, false)]
    case PassGate(t) => w.flights[t := w.flights[t].(cleared := true)]
    case CreateNode(t, g) => w.flights[t := w.flights[t].(created := true)]
    case Finish(t, marked) => w.flights - {t}
    case Drop(t) => w.flights - {t}
    case _ => w.flights
  }

  ghost function NextRequests(w: World, a: Action): map<string, set<Machine>>
    requires Enabled(w, a)
  {
    if a.Environment? then EnvRequests(w, a.env) else w.requests
  }

  ghost function StepEvents(w: World, a: Action): seq<Event>
    requires Enabled(w, a)
  {
    match a
    case PatchMachine(t, m) => [Patched(t, m.name)]
    case SendAbort(t, n) => [AbortSent(t, n.name)]
    case CreateNode(t, g) => [Created(t, Target(w.flights[t].scope).value.name)]
    case _ => []
  }

  ghost function Next(w: World, a: Action): World
    requires Enabled(w, a)
  {
    World(w.store.(machines := NextMachines(w, a), nodeTasks := NextNodes(w, a), tasks := NextTasks(w, a)),
          NextFlights(w, a), NextRequests(w, a), w.log + StepEvents(w, a))
  }

  /******* Runs *******/

  ghost predicate IsRun(w: World, run: seq<Action>)
    decreases run
  {
    run == [] || (Enabled(w, run[0]) && IsRun(Next(w, run[0]), run[1..]))
  }

  ghost function End(w: World, run: seq<Action>): World
    requires IsRun(w, run)
    decreases run
  {
    if run == [] then w else End(Next(w, run[0]), run[1..])
  }

  lemma {:induction false} RunConcat(w: World, a: seq<Action>, b: seq<Action>)
    requires IsRun(w, a) && IsRun(End(w, a), b)
    ensures IsRun(w, a + b) && End(w, a + b) == End(End(w, a), b)
    decreases a
  {
    if a == [] {
      assert a + b == b;
    } else {
      assert (a + b)[0] == a[0] && (a + b)[1..] == a[1..] + b;
      RunConcat(Next(w, a[0]), a[1..], b);
    }
  }

  /******* How the node tasks of one update task evolve *******/

  ghost function Mine(s: Store, t: string): seq<NodeTask>
    requires t in s.tasks
  {
    Listed(s.nodeTasks, KeyOf(s.tasks[t]))
  }

  // A node task keeps its identity, machine and readability, and its state once terminated.
  predicate Evolves(a: NodeTask, b: NodeTask) {
    && a.gvk == b.gvk && a.name == b.name && a.labels == b.labels && a.created == b.created
    && a.machineName == b.machineName
    && (b.phase == a.phase || b.phase == Some(Abort))
    && (IsTerminated(StateOf(a)) ==> b.state == a.state)
  }

  predicate Later(a: seq<NodeTask>, b: seq<NodeTask>) {
    |a| == |b| && forall i :: 0 <= i < |a| ==> Evolves(a[i], b[i])
  }

  lemma LaterSame(ns: seq<NodeTask>)
    ensures Later(ns, ns)
  {
  }

  lemma {:induction false} LaterListed(a: seq<NodeTask>, b: seq<NodeTask>, key: NodeKey)
    requires Later(a, b)
    ensures Later(Listed(a, key), Listed(b, key))
  {
    if a != [] {
      LaterListed(a[1..], b[1..], key);
    }
  }

  lemma KeyStep(w: World, a: Action, t: string)
    requires Enabled(w, a) && t in w.store.tasks
    ensures t in NextTasks(w, a) && KeyOf(NextTasks(w, a)[t]) == KeyOf(w.store.tasks[t])
  {
  }

  lemma NodesStep(w: World, a: Action)
    requires Enabled(w, a) && !a.CreateNode?
    ensures Later(w.store.nodeTasks, NextNodes(w, a))
  {
  }

  predicate CreatesFor(a: Action, t: string) {
    a.CreateNode? && a.task == t
  }

  /** Every step but its own creations evolves the node tasks of an update task one by one. */
  lemma MineEvolves(w: World, a: Action, t: string)
    requires Enabled(w, a) && t in w.store.tasks && ValidStore(w.store) && FlightsOk(w) && !CreatesFor(a, t)
    ensures t in Next(w, a).store.tasks && Later(Mine(w.store, t), Mine(Next(w, a).store, t))
  {
    KeyStep(w, a, t);
    assert Mine(Next(w, a).store, t) == Listed(NextNodes(w, a), KeyOf(w.store.tasks[t]));
    if a.CreateNode? {
      var n := NodeFor(w, w.flights[a.task], a.generated);
      assert FlightOk(w, a.task);
      assert n.labels[UpdateTaskName] == a.task;
      var _ := ListedInsert(w.store.nodeTasks, a.generated.position, n, KeyOf(w.store.tasks[t]));
      LaterSame(Mine(w.store, t));
    } else {
      NodesStep(w, a);
      LaterListed(w.store.nodeTasks, NextNodes(w, a), KeyOf(w.store.tasks[t]));
    }
  }

  /** Its own creation adds exactly the new node task. */
  lemma MineGrows(w: World, a: Action, t: string) returns (k: nat)
    requires Enabled(w, a) && FlightsOk(w) && CreatesFor(a, t)
    ensures t in w.store.tasks && t in Next(w, a).store.tasks
    ensures k <= |Mine(w.store, t)|
    ensures Mine(Next(w, a).store, t) == Insert(Mine(w.store, t), k, NodeFor(w, w.flights[t], a.generated))
  {
    assert FlightOk(w, t);
    var n := NodeFor(w, w.flights[t], a.generated);
    assert BelongsTo(n, KeyOf(w.flights[t].scope.task));
    k := ListedInsert(w.store.nodeTasks, a.generated.position, n, KeyOf(w.store.tasks[t]));
  }

  /******* The invariant of the protocol *******/

  predicate StateReachable(st: State) {
    st.Unknown? || st.InProgress? || st.Updated? || st.Aborted?
  }

  predicate TasksOk(w: World) {
    && ValidStore(w.store)
    && forall t :: t in w.store.tasks ==>
         && StateReachable(w.store.tasks[t].state)
         && (IsTerminated(w.store.tasks[t].state) ==> !w.store.tasks[t].finalizer)
  }

  predicate FlightOk(w: World, t: string)
    requires t in w.flights
  {
    var f := w.flights[t];
    && t in w.store.tasks && w.store.tasks[t].finalizer && !IsTerminated(w.store.tasks[t].state)
    && f.scope.task.name == t && KeyOf(f.scope.task) == KeyOf(w.store.tasks[t])
    && AllReadable(f.scope.nodes)
    && (f.cleared ==> NodeGate(f.scope.nodes).Open? && !AbortRequested(f.scope.task))
  }

  // Part of the invariant: reconciles in flight work for stored, unfinished tasks.
  predicate FlightsOk(w: World) {
    forall t :: t in w.flights ==> FlightOk(w, t)
  }

  // Until a flight creates, the node tasks it listed are all there are, further evolved.
  ghost predicate Synced(w: World) {
    forall t :: t in w.flights && !w.flights[t].created ==>
      t in w.store.tasks && Later(w.flights[t].scope.nodes, Mine(w.store, t))
  }

  predicate IsOpen(n: NodeTask) {
    !IsSettled(StateOf(n))
  }

  // At most one node task is outside Updated and Aborted.
  predicate Serial(ns: seq<NodeTask>) {
    forall i, j :: 0 <= i < |ns| && 0 <= j < |ns| && IsOpen(ns[i]) && IsOpen(ns[j]) ==> i == j
  }

  ghost predicate RolloutsOk(w: World) {
    forall t :: t in w.store.tasks ==> Serial(Mine(w.store, t)) && OnePerMachine(Mine(w.store, t))
  }

  ghost predicate Inv(w: World) {
    TasksOk(w) && FlightsOk(w) && Synced(w) && RolloutsOk(w)
  }
}
