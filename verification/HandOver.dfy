/** What a request to the handler achieves, and the hand-over from the tasks it supersedes. */
module HandOver {
  import opened UpdateTypes
  import opened Objects
  import opened Nodes
  import opened Scopes
  import opened Protocol
  import opened Invariants
  import opened Refinement
  import opened Guarantees
  import opened Handlers
  import opened HandlerLoops

  /******* The abort loop *******/

  /** The abort loop changes the phase of superseded tasks and nothing else; if it is not stopped, it aborts
      every one of them. */
  lemma AbortOldExact(
    tasks: map<string, UpdateTask>, order: seq<string>, cluster: string, controlPlane: string, calls: HandlerCalls)
    requires forall i, j :: 0 <= i < |order| && 0 <= j < |order| && order[i] == order[j] ==> i == j
    ensures var r := AbortOld(tasks, order, cluster, controlPlane, calls);
      && r.tasks.Keys == tasks.Keys
      && (forall t :: t in tasks ==>
            || r.tasks[t] == tasks[t]
            || (IsSuperseded(tasks[t], cluster, controlPlane) && r.tasks[t] == tasks[t].(phase := Abort)))
      && (r.stop.None? ==> forall t :: t in tasks && t in order && IsSuperseded(tasks[t], cluster, controlPlane) ==>
            r.tasks[t].phase.Abort?)
      && (forall t :: t in tasks && t !in order ==> r.tasks[t] == tasks[t])
      && (r.stop.Some? ==> !r.stop.value.Accepted?)
  {
    var k := AbortPrefix(tasks, order, cluster, controlPlane, calls);
    forall t | t in tasks
      ensures IsSuperseded(tasks[t], cluster, controlPlane) <==> IsToAbort(tasks[t], cluster, controlPlane)
    {
      SupersededMeans(tasks[t], cluster, controlPlane);
    }
  }

  /******* The annotation loop *******/

  predicate Takes(before: Machine, after: Machine, todo: seq<Machine>, taskName: string) {
    after == before || (before in todo && after == Reannotated(before, taskName))
  }

  /** The annotation loop changes nothing but listed machines; if it is not stopped, each of them is in the
      scope of the new task and has lost its condition. */
  lemma AnnotateExact(machines: seq<Machine>, cluster: string, taskName: string, calls: HandlerCalls)
    requires DistinctNames(machines)
    ensures var todo := WithLabels(machines, ControlPlaneSelector(cluster));
      var r := AnnotateAll(machines, todo, taskName, calls);
      && |r.machines| == |machines|
      && (forall i :: 0 <= i < |machines| ==> Takes(machines[i], r.machines[i], todo, taskName))
      && (r.stop.None? ==> forall i :: 0 <= i < |machines| ==>
            r.machines[i] == if machines[i] in todo then Reannotated(machines[i], taskName) else machines[i])
      && (r.stop.Some? && r.stop.value.Accepted? ==> exists m :: m in todo && m.name in calls.machinePatches)
      && (r.stop.None? ==> forall m :: m in todo ==> m.name !in calls.machinePatches)
  {
    var todo, k := AnnotatePrefix(machines, cluster, taskName, calls);
    var r := AnnotateAll(machines, todo, taskName, calls);
    forall i | 0 <= i < |machines|
      ensures r.machines[i] == if machines[i] in todo[..k] then Reannotated(machines[i], taskName) else machines[i]
    {
    }
    assert todo[..|todo|] == todo;
    NoneStops(todo, k, calls);
  }

  lemma NoneStops(todo: seq<Machine>, k: nat, calls: HandlerCalls)
    requires k <= |todo| && forall j :: 0 <= j < k ==> StopsAnnotating(todo[j], calls).None?
    ensures k == |todo| ==> forall m :: m in todo ==> m.name !in calls.machinePatches
    ensures k < |todo| && StopsAnnotating(todo[k], calls) == Some(Accepted) ==>
      exists m :: m in todo && m.name in calls.machinePatches
  {
    if k < |todo| { assert todo[k] in todo; }
  }

  /******* What an answer means *******/

  predicate NoPatchFails(s: Store, cluster: string, calls: HandlerCalls) {
    forall m :: m in WithLabels(s.machines, ControlPlaneSelector(cluster)) ==> m.name !in calls.machinePatches
  }

  // The request got as far as patching every listed machine.
  predicate AnnotationDone(s: Store, request: Request, calls: HandlerCalls) {
    && IsAcceptable(s, request, calls) && !calls.listMachines
    && var cluster, controlPlane := request.cluster.value, request.controlPlane.value.name;
    && AbortOld(s.tasks, calls.taskOrder, cluster, controlPlane, calls).stop.None?
    && var todo := WithLabels(s.machines, ControlPlaneSelector(cluster));
    && AnnotateAll(s.machines, todo, NewTaskName(cluster, calls), calls).stop.None?
  }

  lemma TakeOverExact(s: Store, cluster: string, request: Request, calls: HandlerCalls)
    requires DistinctNames(s.machines) && NewTaskName(cluster, calls) !in s.tasks
    requires TakeOver(s, cluster, request, calls).answer.Accepted?
    ensures var s', name := TakeOver(s, cluster, request, calls).store, NewTaskName(cluster, calls);
      if NoPatchFails(s, cluster, calls)
      then s.policies != [] && s'.tasks == s.tasks[name := NewTask(cluster, request, s.policies[0], calls)]
      else s'.tasks == s.tasks
    ensures !calls.listMachines
    ensures var todo := WithLabels(s.machines, ControlPlaneSelector(cluster));
      NoPatchFails(s, cluster, calls) ==> AnnotateAll(s.machines, todo, NewTaskName(cluster, calls), calls).stop.None?
  {
    AnnotateExact(s.machines, cluster, NewTaskName(cluster, calls), calls);
  }

  /** An accepted request has created its task if and only if no machine patch failed, and in both cases every
      superseded task is in phase Abort and no other task has changed. */
  lemma AcceptedExact(s: Store, request: Request, calls: HandlerCalls)
    requires ValidStore(s) && IsListing(calls.taskOrder, s.tasks)
    requires request.cluster.Some? && NewTaskName(request.cluster.value, calls) !in s.tasks
    requires Handled(s, request, calls).answer.Accepted?
    ensures request.controlPlane.Some?
    ensures var s' := Handled(s, request, calls).store;
      var cluster, name := request.cluster.value, NewTaskName(request.cluster.value, calls);
      && (name in s'.tasks <==> NoPatchFails(s, cluster, calls))
      && (name in s'.tasks ==> s.policies != [] && s'.tasks[name] == NewTask(cluster, request, s.policies[0], calls))
      && (forall t :: t in s.tasks && IsSuperseded(s.tasks[t], cluster, request.controlPlane.value.name) ==>
            t in s'.tasks && s'.tasks[t] == s.tasks[t].(phase := Abort))
      && (forall t :: t in s.tasks && !IsSuperseded(s.tasks[t], cluster, request.controlPlane.value.name) ==>
            t in s'.tasks && s'.tasks[t] == s.tasks[t])
      && (NoPatchFails(s, cluster, calls) ==> AnnotationDone(s, request, calls))
  {
    var cluster, controlPlane := request.cluster.value, request.controlPlane.value.name;
    var a := AbortOld(s.tasks, calls.taskOrder, cluster, controlPlane, calls);
    AbortOldExact(s.tasks, calls.taskOrder, cluster, controlPlane, calls);
    TakeOverExact(s.(tasks := a.tasks), cluster, request, calls);
    assert NoPatchFails(s.(tasks := a.tasks), cluster, calls) <==> NoPatchFails(s, cluster, calls);
  }

  /** Then every control-plane machine of the cluster is in the scope of the new task and has lost its
      condition, and no other machine has changed, whether or not the task could be created. */
  lemma TakenMachines(s: Store, request: Request, calls: HandlerCalls)
    requires DistinctNames(s.machines) && AnnotationDone(s, request, calls)
    ensures var ms, ms' := s.machines, Handled(s, request, calls).store.machines;
      && |ms'| == |ms|
      && forall i :: 0 <= i < |ms| ==>
           ms'[i] == if Matches(ms[i].labels, ControlPlaneSelector(request.cluster.value))
                     then Reannotated(ms[i], NewTaskName(request.cluster.value, calls)) else ms[i]
  {
    AnnotateExact(s.machines, request.cluster.value, NewTaskName(request.cluster.value, calls), calls);
    assert forall i :: 0 <= i < |s.machines| ==> s.machines[i] in s.machines;
  }

  /** An accepted request may have created nothing: one machine whose patch fails is enough. */
  lemma AcceptedWithoutTask() returns (s: Store, request: Request, calls: HandlerCalls)
    ensures ValidStore(s) && IsListing(calls.taskOrder, s.tasks)
    ensures Handled(s, request, calls) == Handling(s, Accepted)
  {
    var m := Machine("m", 0, ControlPlaneSelector("c"), Some(map[]), false, true, map[], NotSet);
    s := Store(map["c" := false], map[], [m], [], map[], map[], []);
    request := Request(Some("c"), Some(ObjectRef("v1", "KubeadmControlPlane", "cp")), MachineSpec("", "", ""));
    calls := HandlerCalls(false, false, {}, false, {}, {"m"}, false, false, [], "x");
    assert WithLabels([m], ControlPlaneSelector("c")) == [m];
  }

  /******* A request as steps of the protocol *******/

  // Only steps of the environment.
  predicate IsEnvironmentRun(run: seq<Action>) {
    forall a :: a in run ==> a.Environment?
  }

  lemma {:induction false} AbortingSteps(
    w: World, order: seq<string>, cluster: string, controlPlane: string, calls: HandlerCalls)
    returns (run: seq<Action>)
    ensures IsRun(w, run) && IsEnvironmentRun(run)
    ensures End(w, run) ==
            w.(store := w.store.(tasks := AbortOld(w.store.tasks, order, cluster, controlPlane, calls).tasks))
    decreases order
  {
    run := [];
    if order != [] {
      var t := order[0];
      if t !in w.store.tasks || !IsAbout(w.store.tasks[t], cluster) {
        run := AbortingSteps(w, order[1..], cluster, controlPlane, calls);
      } else if w.store.tasks[t].controlPlane.Some? {
        if !IsSuperseded(w.store.tasks[t], cluster, controlPlane) {
          run := AbortingSteps(w, order[1..], cluster, controlPlane, calls);
        } else if t !in calls.abortPatches {
          var a := Environment(SetPhase(t, Abort));
          var tasks' := w.store.tasks[t := w.store.tasks[t].(phase := Abort)];
          assert Next(w, a) == w.(store := w.store.(tasks := tasks')) by {
            assert w.log + [] == w.log;
          }
          var rest := AbortingSteps(Next(w, a), order[1..], cluster, controlPlane, calls);
          run := [a] + rest;
          assert run[1..] == rest;
        }
      }
    }
  }

  // The request has listed these machines and not annotated any of them yet.
  predicate HasPending(w: World, name: string, todo: seq<Machine>) {
    name in w.requests && forall m :: m in todo ==> m in w.requests[name]
  }

  lemma AnnotatingStep(w: World, m: Machine, rest: seq<Machine>, name: string)
    requires name !in w.store.tasks && HasPending(w, name, [m] + rest) && m !in rest
    ensures var a := Environment(Annotate(name, m));
      && Enabled(w, a) && HasPending(Next(w, a), name, rest)
      && Next(w, a) == w.(store := w.store.(machines := AnnotateListed(w.store.machines, m, name)),
                          requests := w.requests[name := w.requests[name] - {m}])
  {
    assert m in [m] + rest && forall x :: x in rest ==> x in [m] + rest;
    assert w.log + [] == w.log;
  }

  lemma {:induction false} AnnotatingSteps(w: World, todo: seq<Machine>, name: string, calls: HandlerCalls)
    returns (run: seq<Action>)
    requires name !in w.store.tasks && HasPending(w, name, todo) && DistinctNames(todo)
    ensures IsRun(w, run) && IsEnvironmentRun(run)
    ensures End(w, run).store == w.store.(machines := AnnotateAll(w.store.machines, todo, name, calls).machines)
    ensures End(w, run).flights == w.flights && End(w, run).log == w.log
    ensures name in End(w, run).requests && End(w, run).requests - {name} == w.requests - {name}
    decreases todo
  {
    run := [];
    if todo != [] {
      var m := todo[0];
      if m.name !in calls.machineHelpers && m.annotations.Some? && m.name !in calls.machinePatches {
        var a := Environment(Annotate(name, m));
        assert todo == [m] + todo[1..];
        AnnotatingStep(w, m, todo[1..], name);
        var rest := AnnotatingSteps(Next(w, a), todo[1..], name, calls);
        run := [a] + rest;
        assert run[1..] == rest;
      }
    }
  }

  // The generated name is new: among tasks, among requests, and among the labels of node tasks.
  predicate IsFreshName(w: World, name: string) {
    && name !in w.store.tasks && name !in w.requests
    && forall n :: n in w.store.nodeTasks ==> !(UpdateTaskName in n.labels && n.labels[UpdateTaskName] == name)
  }

  lemma CreatingSteps(w: World, cluster: string, request: Request, calls: HandlerCalls) returns (run: seq<Action>)
    requires IsFreshName(w.(requests := map[]), NewTaskName(cluster, calls))
    ensures IsRun(w, run) && IsEnvironmentRun(run)
    ensures End(w, run) == w.(store := CreateNew(w.store, cluster, request, calls).store)
  {
    run := [];
    if CreateNew(w.store, cluster, request, calls).answer.Accepted? {
      var a := Environment(AddTask(NewTask(cluster, request, w.store.policies[0], calls)));
      run := [a];
      assert run[1..] == [] && w.log + [] == w.log;
    }
  }

  lemma ListingStep(w: World, cluster: string, name: string)
    requires name !in w.store.tasks && name !in w.requests
    ensures var a := Environment(ListMachines(name, ControlPlaneSelector(cluster)));
      var todo := WithLabels(w.store.machines, ControlPlaneSelector(cluster));
      && Enabled(w, a) && HasPending(Next(w, a), name, todo)
      && Next(w, a) == w.(requests := w.requests[name := set m | m in todo])
  {
    assert w.log + [] == w.log;
  }

  lemma EndingStep(w: World, name: string)
    requires name in w.requests
    ensures Enabled(w, Environment(EndRequest(name)))
    ensures Next(w, Environment(EndRequest(name))) == w.(requests := w.requests - {name})
  {
    assert w.log + [] == w.log;
  }

  // What a request does between listing the machines and returning.
  lemma ListedSteps(w: World, cluster: string, request: Request, calls: HandlerCalls) returns (run: seq<Action>)
    requires var name := NewTaskName(cluster, calls);
      && IsFreshName(w.(requests := map[]), name) && DistinctNames(w.store.machines) && !calls.listMachines
      && HasPending(w, name, WithLabels(w.store.machines, ControlPlaneSelector(cluster)))
    ensures IsRun(w, run) && IsEnvironmentRun(run)
    ensures End(w, run).store == TakeOver(w.store, cluster, request, calls).store
    ensures End(w, run).flights == w.flights && End(w, run).log == w.log
    ensures var name := NewTaskName(cluster, calls);
      name in End(w, run).requests && End(w, run).requests - {name} == w.requests - {name}
  {
    var todo := WithLabels(w.store.machines, ControlPlaneSelector(cluster));
    WithLabelsDistinct(w.store.machines, ControlPlaneSelector(cluster));
    run := AnnotatingSteps(w, todo, NewTaskName(cluster, calls), calls);
    if AnnotateAll(w.store.machines, todo, NewTaskName(cluster, calls), calls).stop.None? {
      var last := CreatingSteps(End(w, run), cluster, request, calls);
      RunConcat(w, run, last);
      run := run + last;
    }
  }

  lemma Around(w: World, first: Action, run: seq<Action>, last: Action)
    requires Enabled(w, first) && IsRun(Next(w, first), run) && Enabled(End(Next(w, first), run), last)
    ensures IsRun(w, [first] + run + [last])
    ensures End(w, [first] + run + [last]) == Next(End(Next(w, first), run), last)
  {
    Extend(Next(w, first), run, last);
    assert ([first] + run + [last])[1..] == run + [last];
  }

  // From the listing of the machines to the end of the request.
  lemma TakingSteps(w: World, cluster: string, request: Request, calls: HandlerCalls) returns (run: seq<Action>)
    requires IsFreshName(w, NewTaskName(cluster, calls)) && DistinctNames(w.store.machines)
    ensures IsRun(w, run) && IsEnvironmentRun(run)
    ensures End(w, run) == w.(store := TakeOver(w.store, cluster, request, calls).store)
  {
    run := [];
    if !calls.listMachines {
      var name := NewTaskName(cluster, calls);
      var first := Environment(ListMachines(name, ControlPlaneSelector(cluster)));
      ListingStep(w, cluster, name);
      var steps := ListedSteps(Next(w, first), cluster, request, calls);
      EndingStep(End(Next(w, first), steps), name);
      Around(w, first, steps, Environment(EndRequest(name)));
      run := [first] + steps + [Environment(EndRequest(name))];
    }
  }

  // All tasks are listed, machines have distinct names, and the name generated for the new task is new.
  predicate IsNewRequest(w: World, request: Request, calls: HandlerCalls) {
    && IsListing(calls.taskOrder, w.store.tasks) && DistinctNames(w.store.machines)
    && (request.cluster.Some? ==> IsFreshName(w, NewTaskName(request.cluster.value, calls)))
  }

  function AfterRequest(w: World, request: Request, calls: HandlerCalls): World {
    w.(store := Handled(w.store, request, calls).store)
  }

  /** Whatever calls of it fail, a request changes the store as some run of environment steps does. */
  lemma HandlerIsRun(w: World, request: Request, calls: HandlerCalls) returns (run: seq<Action>)
    requires IsNewRequest(w, request, calls)
    ensures IsRun(w, run) && IsEnvironmentRun(run)
    ensures End(w, run) == AfterRequest(w, request, calls)
  {
    run := [];
    if IsAcceptable(w.store, request, calls) {
      var cluster, controlPlane := request.cluster.value, request.controlPlane.value.name;
      run := AbortingSteps(w, calls.taskOrder, cluster, controlPlane, calls);
      AbortOldExact(w.store.tasks, calls.taskOrder, cluster, controlPlane, calls);
      if AbortOld(w.store.tasks, calls.taskOrder, cluster, controlPlane, calls).stop.None? {
        var more := TakingSteps(End(w, run), cluster, request, calls);
        RunConcat(w, run, more);
        run := run + more;
      }
    }
  }

  /******* Hand-over *******/

  // Every control-plane machine of the cluster is in the scope of this task.
  predicate IsTakenOver(s: Store, cluster: string, taskName: string) {
    forall m :: m in WithLabels(s.machines, ControlPlaneSelector(cluster)) ==> IsMachineInUpdateScope(m, taskName)
  }

  lemma TakenOverMeansReleased(w: World, cluster: string, newTask: string, elder: string, m: Machine)
    requires DistinctNames(w.store.machines) && IsTakenOver(w.store, cluster, newTask)
    requires elder in w.store.tasks && elder != newTask && elder !in w.flights
    requires m in WithLabels(w.store.machines, ControlPlaneSelector(cluster))
    ensures IsReleased(w, elder, m.name)
  {
    forall x | x in w.store.machines && x.name == m.name ensures !IsMachineInUpdateScope(x, elder) {
      var i :| 0 <= i < |w.store.machines| && w.store.machines[i] == x;
      var j :| 0 <= j < |w.store.machines| && w.store.machines[j] == m;
    }
  }

  /** Once the annotation loop has patched every control-plane machine, a task that was there before never
      again gets a node task for one of them, nor patches one, in a reconcile that starts later: whatever
      happens afterwards, further hand-overs included. */
  lemma HandedOver(w: World, cluster: string, newTask: string, elder: string, m: Machine, run: seq<Action>)
    requires Inv(w) && IsTakenOver(w.store, cluster, newTask)
    requires elder in w.store.tasks && elder != newTask && elder !in w.flights
    requires m in WithLabels(w.store.machines, ControlPlaneSelector(cluster)) && IsRun(w, run)
    ensures Created(elder, m.name) !in NewEvents(w, run) && Patched(elder, m.name) !in NewEvents(w, run)
    ensures forall x :: x in End(w, run).store.machines && x.name == m.name ==> !IsMachineInUpdateScope(x, elder)
  {
    TakenOverMeansReleased(w, cluster, newTask, elder, m);
    ReleasedForEver(w, run, elder, m.name);
  }

  /** A request whose annotation loop goes through takes every control-plane machine over. */
  lemma RequestTakesOver(s: Store, request: Request, calls: HandlerCalls)
    requires DistinctNames(s.machines) && AnnotationDone(s, request, calls)
    ensures var cluster := request.cluster.value;
      IsTakenOver(Handled(s, request, calls).store, cluster, NewTaskName(cluster, calls))
  {
    TakenMachines(s, request, calls);
    var cluster := request.cluster.value;
    ReannotatedMachines(s.machines, Handled(s, request, calls).store.machines, ControlPlaneSelector(cluster),
                        NewTaskName(cluster, calls));
  }

  lemma ReannotatedMachines(ms: seq<Machine>, ms': seq<Machine>, selector: Labels, taskName: string)
    requires |ms'| == |ms| && forall i :: 0 <= i < |ms| ==>
      ms'[i] == if Matches(ms[i].labels, selector) then Reannotated(ms[i], taskName) else ms[i]
    ensures forall m :: m in WithLabels(ms', selector) ==> IsMachineInUpdateScope(m, taskName)
  {
    forall m | m in WithLabels(ms', selector) ensures IsMachineInUpdateScope(m, taskName) {
      var i :| 0 <= i < |ms'| && ms'[i] == m;
      assert ms'[i].labels == ms[i].labels;
    }
  }

  lemma RequestKeepsInv(w: World, request: Request, calls: HandlerCalls)
    requires Inv(w) && IsNewRequest(w, request, calls)
    ensures Inv(AfterRequest(w, request, calls))
  {
    var steps := HandlerIsRun(w, request, calls);
    InvRun(w, steps);
  }

  lemma RequestKeepsTasks(s: Store, request: Request, calls: HandlerCalls, elder: string)
    requires IsListing(calls.taskOrder, s.tasks) && elder in s.tasks
    ensures elder in Handled(s, request, calls).store.tasks
  {
    if IsAcceptable(s, request, calls) {
      AbortOldExact(s.tasks, calls.taskOrder, request.cluster.value, request.controlPlane.value.name, calls);
    }
  }

  // Request `calls` went through its annotation loop, and took machine m over.
  predicate TookOver(w: World, request: Request, calls: HandlerCalls, m: Machine) {
    && AnnotationDone(w.store, request, calls)
    && m in AfterRequest(w, request, calls).store.machines
    && Matches(m.labels, ControlPlaneSelector(request.cluster.value))
  }

  // Stored, and no reconcile of it is in flight.
  predicate IsIdle(w: World, t: string) {
    t in w.store.tasks && t !in w.flights
  }

  /** The whole hand-over: after such a request no task that was stored before, and is not in flight, ever
      gets a node task for, or patches, a control-plane machine of the cluster, in any run. */
  lemma RequestHandsOver(w: World, request: Request, calls: HandlerCalls, elder: string, m: Machine)
    requires Inv(w) && IsNewRequest(w, request, calls) && IsIdle(w, elder) && TookOver(w, request, calls, m)
    ensures Inv(AfterRequest(w, request, calls)) && IsReleased(AfterRequest(w, request, calls), elder, m.name)
    ensures forall run :: IsRun(AfterRequest(w, request, calls), run) ==>
      && Created(elder, m.name) !in NewEvents(AfterRequest(w, request, calls), run)
      && Patched(elder, m.name) !in NewEvents(AfterRequest(w, request, calls), run)
  {
    RequestKeepsInv(w, request, calls);
    RequestKeepsTasks(w.store, request, calls, elder);
    RequestTakesOver(w.store, request, calls);
    var w' := AfterRequest(w, request, calls);
    TakenOverMeansReleased(w', request.cluster.value, NewTaskName(request.cluster.value, calls), elder, m);
    forall run | IsRun(w', run)
      ensures Created(elder, m.name) !in NewEvents(w', run) && Patched(elder, m.name) !in NewEvents(w', run)
    {
      ReleasedForEver(w', run, elder, m.name);
    }
  }
}
