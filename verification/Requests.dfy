/** What one request to the handler does and answers, in the fields of the objects it reads, and what the task it
    creates is good for. */
module Requests {
  import opened UpdateTypes
  import opened Objects
  import opened Nodes
  import opened Scopes
  import opened Rollout
  import opened Protocol
  import opened Invariants
  import opened Handlers
  import opened HandlerLoops
  import opened HandOver
  import opened Outcomes
  import opened Starts

  /******* Requests that are rejected at once *******/

  predicate CannotServe(s: Store, request: Request, calls: HandlerCalls) {
    || request.cluster.None? || calls.getCluster || request.cluster.value !in s.clusters
    || s.clusters[request.cluster.value] || request.controlPlane.None? || calls.listTasks
  }

  /** Without cluster or control plane, or for a cluster that cannot be read or is being deleted, or when the tasks
      cannot be listed, the request is rejected and changes nothing. */
  lemma RejectedAtOnce(s: Store, request: Request, calls: HandlerCalls)
    ensures IsAcceptable(s, request, calls) <==> !CannotServe(s, request, calls)
    ensures CannotServe(s, request, calls) ==> Handled(s, request, calls) == Handling(s, Rejected)
  {
  }

  /******* The new task *******/

  // The new task: of the cluster and the control plane of the request, for its machine spec, with the first policy's
  // template, in phase Update, and nothing else set.
  predicate IsNewTask(t: UpdateTask, name: string, request: Request, template: ObjectRef) {
    && request.cluster.Some? && request.controlPlane.Some?
    && t.name == name && t.labels == map[ClusterName := request.cluster.value] && t.cluster == request.cluster.value
    && t.controlPlane == request.controlPlane && t.deployment.None?
    && t.newMachine == request.newMachine && t.templateRef == template && t.templateLabels.None?
    && t.phase == Update && t.state == Unknown && !t.deleting && !t.finalizer
  }

  function RequestName(request: Request, calls: HandlerCalls): string
    requires request.cluster.Some?
  {
    request.cluster.value + "-update-" + calls.random
  }

  // The request comes to create its task.
  predicate CreatesTask(s: Store, request: Request, calls: HandlerCalls) {
    && !CannotServe(s, request, calls)
    && AbortOld(s.tasks, calls.taskOrder, request.cluster.value, request.controlPlane.value.name, calls).stop.None?
    && !calls.listMachines
    && (forall m :: m in s.machines && IsPlaneMachine(m, request.cluster.value) ==> StopsAnnotating(m, calls).None?)
    && !calls.listPolicies && s.policies != [] && !calls.createTask && RequestName(request, calls) !in s.tasks
  }

  lemma AllAnnotated(s: Store, request: Request, calls: HandlerCalls)
    requires DistinctNames(s.machines) && request.cluster.Some?
    ensures var todo := WithLabels(s.machines, ControlPlaneSelector(request.cluster.value));
      AnnotateAll(s.machines, todo, RequestName(request, calls), calls).stop.None? <==>
      forall m :: m in s.machines && IsPlaneMachine(m, request.cluster.value) ==> StopsAnnotating(m, calls).None?
  {
    var todo, k := AnnotatePrefix(s.machines, request.cluster.value, RequestName(request, calls), calls);
    if k < |todo| {
      assert todo[k] in todo;
    }
  }

  // What comes after the abort loop.
  lemma TakeOverCreates(s: Store, request: Request, calls: HandlerCalls)
    requires DistinctNames(s.machines) && request.cluster.Some? && request.controlPlane.Some?
    ensures var h, name := TakeOver(s, request.cluster.value, request, calls), RequestName(request, calls);
      if && !calls.listMachines && !calls.listPolicies && s.policies != [] && !calls.createTask && name !in s.tasks
         && forall m :: m in s.machines && IsPlaneMachine(m, request.cluster.value) ==> StopsAnnotating(m, calls).None?
      then
        h.answer.Accepted? && h.store.tasks.Keys == s.tasks.Keys + {name} &&
        IsNewTask(h.store.tasks[name], name, request, s.policies[0])
      else h.store.tasks == s.tasks
  {
    AllAnnotated(s, request, calls);
  }

  /** When a request creates its task, and which: exactly if nothing stops it on the way, and then the task is the one
      asked for, field by field. Otherwise no task is added. */
  lemma RequestCreates(s: Store, request: Request, calls: HandlerCalls)
    requires DistinctNames(s.machines) && IsListing(calls.taskOrder, s.tasks)
    ensures var s' := Handled(s, request, calls).store;
      if CreatesTask(s, request, calls)
      then
        && Handled(s, request, calls).answer.Accepted?
        && s'.tasks.Keys == s.tasks.Keys + {RequestName(request, calls)}
        && IsNewTask(s'.tasks[RequestName(request, calls)], RequestName(request, calls), request, s.policies[0])
      else s'.tasks.Keys == s.tasks.Keys
  {
    if !CannotServe(s, request, calls) {
      var cluster, controlPlane := request.cluster.value, request.controlPlane.value.name;
      var k := AbortPrefix(s.tasks, calls.taskOrder, cluster, controlPlane, calls);
      var r := AbortOld(s.tasks, calls.taskOrder, cluster, controlPlane, calls);
      TakeOverCreates(s.(tasks := r.tasks), request, calls);
    }
  }

  lemma TakeOverTasks(s: Store, cluster: string, request: Request, calls: HandlerCalls)
    ensures var s' := TakeOver(s, cluster, request, calls).store;
      && s' == s.(machines := s'.machines, tasks := s'.tasks)
      && forall t :: t != NewTaskName(cluster, calls) ==>
           (t in s'.tasks <==> t in s.tasks) && (t in s.tasks ==> s'.tasks[t] == s.tasks[t])
  {
  }

  // What a request leaves of the tasks that were there.
  lemma HandledTasks(s: Store, request: Request, calls: HandlerCalls)
    requires !CannotServe(s, request, calls)
    ensures var s' := Handled(s, request, calls).store;
      var r := AbortOld(s.tasks, calls.taskOrder, request.cluster.value, request.controlPlane.value.name, calls);
      && s' == s.(machines := s'.machines, tasks := s'.tasks)
      && forall t :: t != RequestName(request, calls) ==>
           (t in s'.tasks <==> t in r.tasks) && (t in r.tasks ==> s'.tasks[t] == r.tasks[t])
  {
    var cluster, controlPlane := request.cluster.value, request.controlPlane.value.name;
    var r := AbortOld(s.tasks, calls.taskOrder, cluster, controlPlane, calls);
    TakeOverTasks(s.(tasks := r.tasks), cluster, request, calls);
  }

  lemma AcceptedGoesOn(s: Store, request: Request, calls: HandlerCalls)
    requires IsListing(calls.taskOrder, s.tasks) && Handled(s, request, calls).answer.Accepted?
    ensures !CannotServe(s, request, calls)
    ensures AbortOld(s.tasks, calls.taskOrder, request.cluster.value, request.controlPlane.value.name, calls).stop.None?
  {
    var k := AbortPrefix(s.tasks, calls.taskOrder, request.cluster.value, request.controlPlane.value.name, calls);
  }

  /** In an accepted request exactly the tasks of the cluster and the control plane that are in progress go to phase
      Abort, and no other task changes. */
  lemma RequestAborts(s: Store, request: Request, calls: HandlerCalls, t: string)
    requires IsListing(calls.taskOrder, s.tasks) && Handled(s, request, calls).answer.Accepted? && t in s.tasks
    requires request.cluster.Some? && RequestName(request, calls) !in s.tasks
    ensures request.controlPlane.Some? && t in Handled(s, request, calls).store.tasks
    ensures Handled(s, request, calls).store.tasks[t] ==
      if IsToAbort(s.tasks[t], request.cluster.value, request.controlPlane.value.name)
      then s.tasks[t].(phase := Abort) else s.tasks[t]
  {
    AcceptedGoesOn(s, request, calls);
    HandledTasks(s, request, calls);
    var order := calls.taskOrder;
    var k := AbortPrefix(s.tasks, order, request.cluster.value, request.controlPlane.value.name, calls);
    assert IsAmong(order, |order|, t);
  }

  // How the annotation loop ends.
  lemma AnnotationEnds(s: Store, cluster: string, name: string, calls: HandlerCalls)
    requires DistinctNames(s.machines)
    ensures var todo := WithLabels(s.machines, ControlPlaneSelector(cluster));
      AnnotateAll(s.machines, todo, name, calls).stop == Some(Accepted) <==> StopsAtPatch(todo, calls)
  {
    var todo, k := AnnotatePrefix(s.machines, cluster, name, calls);
    FirstStop(todo, calls, k);
  }

  lemma FirstStop(todo: seq<Machine>, calls: HandlerCalls, k: nat)
    requires k <= |todo| && forall j :: 0 <= j < k ==> StopsAnnotating(todo[j], calls).None?
    requires k < |todo| ==> StopsAnnotating(todo[k], calls).Some?
    ensures StopsAtPatch(todo, calls) <==> k < |todo| && StopsAnnotating(todo[k], calls) == Some(Accepted)
  {
  }

  /** A request is accepted exactly when it creates its task or stops at a machine whose patch fails. */
  lemma RequestAccepted(s: Store, request: Request, calls: HandlerCalls)
    requires DistinctNames(s.machines) && IsListing(calls.taskOrder, s.tasks)
    requires request.cluster.Some? && RequestName(request, calls) !in s.tasks
    ensures Handled(s, request, calls).answer.Accepted? <==>
      || CreatesTask(s, request, calls)
      || (!CannotServe(s, request, calls) && !calls.listMachines &&
          var cluster, controlPlane := request.cluster.value, request.controlPlane.value.name;
          AbortOld(s.tasks, calls.taskOrder, cluster, controlPlane, calls).stop.None? &&
          StopsAtPatch(WithLabels(s.machines, ControlPlaneSelector(cluster)), calls))
  {
    if !CannotServe(s, request, calls) {
      var cluster, controlPlane := request.cluster.value, request.controlPlane.value.name;
      var k := AbortPrefix(s.tasks, calls.taskOrder, cluster, controlPlane, calls);
      AllAnnotated(s, request, calls);
      AnnotationEnds(s, cluster, RequestName(request, calls), calls);
    }
  }

  // The first machine that ends the loop is one whose patch fails.
  predicate StopsAtPatch(todo: seq<Machine>, calls: HandlerCalls) {
    exists k :: 0 <= k < |todo| && StopsAnnotating(todo[k], calls) == Some(Accepted) &&
      forall j :: 0 <= j < k ==> StopsAnnotating(todo[j], calls).None?
  }

  /******* What the new task is good for *******/

  // A machine is annotated for the task, and nothing else of it but its condition has changed.
  predicate IsHandedTo(before: Machine, after: Machine, taskName: string) {
    && after.name == before.name && after.labels == before.labels && IsAnnotatedFor(after, taskName)
  }

  lemma CreatedStore(s: Store, request: Request, calls: HandlerCalls)
    requires ValidStore(s) && IsListing(calls.taskOrder, s.tasks) && CreatesTask(s, request, calls)
    ensures var s', name := Handled(s, request, calls).store, RequestName(request, calls);
      && s' == s.(machines := s'.machines, tasks := s'.tasks) && ValidStore(s')
      && name in s'.tasks && IsNewTask(s'.tasks[name], name, request, s.policies[0])
      && |s'.machines| == |s.machines|
      && forall i :: 0 <= i < |s.machines| ==>
           if IsPlaneMachine(s.machines[i], request.cluster.value) then IsHandedTo(s.machines[i], s'.machines[i], name)
           else s'.machines[i] == s.machines[i]
  {
    RequestCreates(s, request, calls);
    CreatedMachines(s, request, calls);
    CreatedNames(s, request, calls);
  }

  lemma CreatedNames(s: Store, request: Request, calls: HandlerCalls)
    requires ValidStore(s) && IsListing(calls.taskOrder, s.tasks) && CreatesTask(s, request, calls)
    ensures var s' := Handled(s, request, calls).store;
      && s' == s.(machines := s'.machines, tasks := s'.tasks)
      && forall t :: t in s'.tasks ==> s'.tasks[t].name == t
  {
    var cluster, controlPlane := request.cluster.value, request.controlPlane.value.name;
    var k := AbortPrefix(s.tasks, calls.taskOrder, cluster, controlPlane, calls);
    HandledTasks(s, request, calls);
    RequestCreates(s, request, calls);
  }

  // What the annotation loop leaves of the machines when nothing stops it.
  lemma AllTaken(machines: seq<Machine>, cluster: string, name: string, calls: HandlerCalls)
    requires DistinctNames(machines)
    requires forall m :: m in machines && IsPlaneMachine(m, cluster) ==> StopsAnnotating(m, calls).None?
    ensures var r := AnnotateAll(machines, WithLabels(machines, ControlPlaneSelector(cluster)), name, calls);
      && |r.machines| == |machines|
      && forall i :: 0 <= i < |machines| ==>
           if IsPlaneMachine(machines[i], cluster) then IsHandedTo(machines[i], r.machines[i], name)
           else r.machines[i] == machines[i]
  {
    var todo, k := AnnotatePrefix(machines, cluster, name, calls);
    assert forall j :: 0 <= j < |todo| ==> todo[j] in todo;
    assert todo[..|todo|] == todo;
    assert forall i :: 0 <= i < |machines| ==> machines[i] in machines;
  }

  lemma CreatedMachines(s: Store, request: Request, calls: HandlerCalls)
    requires ValidStore(s) && CreatesTask(s, request, calls)
    ensures var s', name := Handled(s, request, calls).store, RequestName(request, calls);
      && |s'.machines| == |s.machines| && DistinctNames(s'.machines)
      && forall i :: 0 <= i < |s.machines| ==>
           if IsPlaneMachine(s.machines[i], request.cluster.value) then IsHandedTo(s.machines[i], s'.machines[i], name)
           else s'.machines[i] == s.machines[i]
  {
    AllAnnotated(s, request, calls);
    AllTaken(s.machines, request.cluster.value, RequestName(request, calls), calls);
    var s' := Handled(s, request, calls).store;
    assert forall i :: 0 <= i < |s.machines| ==> s'.machines[i].name == s.machines[i].name;
  }

  // With every selected machine in scope and no node task, there is a target exactly if a machine is selected.
  lemma TargetOfAll(scope: Scope)
    requires scope.nodes == [] && forall m :: m in scope.machines ==> IsAnnotatedFor(m, scope.task.name)
    ensures Target(scope).Some? <==> scope.machines != []
  {
    NextExact(scope);
    if scope.machines != [] {
      assert IsNextUp(scope, scope.machines[0]);
    }
  }

  lemma NewTaskScope(s: Store, request: Request, calls: HandlerCalls)
    requires ValidStore(s) && IsListing(calls.taskOrder, s.tasks) && CreatesTask(s, request, calls)
    requires IsFreshName(Initial(s), RequestName(request, calls))
    ensures var s', name := Handled(s, request, calls).store, RequestName(request, calls);
      && name in s'.tasks && Mine(s', name) == []
      && (forall m :: m in Selected(s', s'.tasks[name]) ==> IsAnnotatedFor(m, name))
      && (Selected(s', s'.tasks[name]) != [] <==>
            exists m :: m in s.machines && IsPlaneMachine(m, request.cluster.value))
  {
    CreatedStore(s, request, calls);
    var s', name := Handled(s, request, calls).store, RequestName(request, calls);
    NoneListed(s'.nodeTasks, KeyOf(s'.tasks[name]));
    forall m' | m' in Selected(s', s'.tasks[name])
      ensures IsAnnotatedFor(m', name) && exists m :: m in s.machines && IsPlaneMachine(m, request.cluster.value)
    {
      SelectedExact(s', s'.tasks[name], m');
      var i :| 0 <= i < |s'.machines| && s'.machines[i] == m';
      assert s.machines[i] in s.machines && IsPlaneMachine(s.machines[i], request.cluster.value);
    }
    if m :| m in s.machines && IsPlaneMachine(m, request.cluster.value) {
      var i :| 0 <= i < |s.machines| && s.machines[i] == m;
      SelectedExact(s', s'.tasks[name], s'.machines[i]);
      assert s'.machines[i] in Selected(s', s'.tasks[name]);
    }
    if Selected(s', s'.tasks[name]) != [] {
      assert Selected(s', s'.tasks[name])[0] in Selected(s', s'.tasks[name]);
    }
  }

  /** A rollout of the new task can start exactly when the template of the policy exists, the gate is open, and the
      cluster has a control-plane machine. */
  lemma NewTaskStarts(s: Store, request: Request, calls: HandlerCalls)
    requires ValidStore(s) && IsListing(calls.taskOrder, s.tasks) && CreatesTask(s, request, calls)
    requires IsFreshName(Initial(s), RequestName(request, calls))
    ensures var s', name := Handled(s, request, calls).store, RequestName(request, calls);
      && name in s'.tasks
      && (CanStart(s', name) <==>
            && s.policies[0] in s.templates && GateOpen(s', s'.tasks[name])
            && exists m :: m in s.machines && IsPlaneMachine(m, request.cluster.value))
  {
    var s', name := Handled(s, request, calls).store, RequestName(request, calls);
    CreatedStore(s, request, calls);
    NewTaskScope(s, request, calls);
    TargetOfAll(ScopeFor(s', s'.tasks[name]));
  }

  // What identifies a task to later requests.
  predicate SameReferences(a: UpdateTask, b: UpdateTask) {
    a.labels == b.labels && a.cluster == b.cluster && a.controlPlane == b.controlPlane
  }

  lemma ReferencesStep(w: World, a: Action, t: string)
    requires Enabled(w, a) && t in w.store.tasks
    ensures t in NextTasks(w, a) && SameReferences(w.store.tasks[t], NextTasks(w, a)[t])
  {
  }

  lemma {:induction false} ReferencesRun(w: World, run: seq<Action>, t: string)
    requires IsRun(w, run) && t in w.store.tasks
    ensures t in End(w, run).store.tasks && SameReferences(w.store.tasks[t], End(w, run).store.tasks[t])
    decreases run
  {
    if run != [] {
      ReferencesStep(w, run[0], t);
      ReferencesRun(Next(w, run[0]), run[1..], t);
    }
  }

  /** And whatever happens after its request, once it is in progress a later accepted request for the same cluster and
      control plane supersedes it. */
  lemma LaterRequestSupersedes(
    w: World, run: seq<Action>, name: string, request: Request, template: ObjectRef, later: Request,
    calls: HandlerCalls)
    requires name in w.store.tasks && IsNewTask(w.store.tasks[name], name, request, template) && IsRun(w, run)
    requires var s := End(w, run).store;
      && name in s.tasks && s.tasks[name].state == InProgress
      && IsListing(calls.taskOrder, s.tasks) && Handled(s, later, calls).answer.Accepted?
      && later.cluster == request.cluster && RequestName(later, calls) !in s.tasks
      && later.controlPlane.Some? && later.controlPlane.value.name == request.controlPlane.value.name
    ensures var s' := Handled(End(w, run).store, later, calls).store;
      name in s'.tasks && s'.tasks[name].phase == Abort
  {
    ReferencesRun(w, run, name);
    RequestAborts(End(w, run).store, later, calls, name);
  }
}
