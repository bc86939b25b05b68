/** How far the two loops of the handler get, and what they leave, in the fields of tasks and machines. */
module HandlerLoops {
  import opened UpdateTypes
  import opened Objects
  import opened Scopes
  import opened Protocol
  import opened Handlers

  /******* The abort loop *******/

  // Labelled with the cluster, and for it.
  predicate IsListedTask(t: UpdateTask, cluster: string) {
    ClusterName in t.labels && t.labels[ClusterName] == cluster && t.cluster == cluster
  }

  predicate IsToAbort(t: UpdateTask, cluster: string, controlPlane: string) {
    && IsListedTask(t, cluster) && t.state == InProgress
    && t.controlPlane.Some? && t.controlPlane.value.name == controlPlane
  }

  predicate StopsAborting(
    tasks: map<string, UpdateTask>, t: string, cluster: string, controlPlane: string, calls: HandlerCalls)
  {
    && t in tasks && IsListedTask(tasks[t], cluster)
    && (tasks[t].controlPlane.None? || (IsToAbort(tasks[t], cluster, controlPlane) && t in calls.abortPatches))
  }

  // One turn of the loop.
  lemma AbortOldStep(
    tasks: map<string, UpdateTask>, order: seq<string>, cluster: string, controlPlane: string, calls: HandlerCalls)
    returns (next: map<string, UpdateTask>)
    requires order != []
    ensures next == if order[0] in tasks && IsToAbort(tasks[order[0]], cluster, controlPlane)
                    then tasks[order[0] := tasks[order[0]].(phase := Abort)] else tasks
    ensures AbortOld(tasks, order, cluster, controlPlane, calls) ==
      if StopsAborting(tasks, order[0], cluster, controlPlane, calls)
      then Aborts(tasks, Some(if tasks[order[0]].controlPlane.None? then Panicked else Rejected))
      else AbortOld(next, order[1..], cluster, controlPlane, calls)
  {
    next := if order[0] in tasks && IsToAbort(tasks[order[0]], cluster, controlPlane)
            then tasks[order[0] := tasks[order[0]].(phase := Abort)] else tasks;
    if order[0] in tasks {
      SupersededMeans(tasks[order[0]], cluster, controlPlane);
    }
  }

  lemma SupersededMeans(t: UpdateTask, cluster: string, controlPlane: string)
    ensures IsAbout(t, cluster) <==> IsListedTask(t, cluster)
    ensures IsSuperseded(t, cluster, controlPlane) <==> IsToAbort(t, cluster, controlPlane)
  {
  }

  // The loop ends at place k of the list.
  predicate AbortingStopsAt(
    tasks: map<string, UpdateTask>, order: seq<string>, cluster: string, controlPlane: string, calls: HandlerCalls,
    k: nat)
  {
    && k <= |order|
    && (forall j :: 0 <= j < k ==> !StopsAborting(tasks, order[j], cluster, controlPlane, calls))
    && (k < |order| ==> StopsAborting(tasks, order[k], cluster, controlPlane, calls))
  }

  // Exactly the tasks that are to be aborted, among the first k, have been.
  predicate AbortedUpTo(
    tasks: map<string, UpdateTask>, after: map<string, UpdateTask>, order: seq<string>, cluster: string,
    controlPlane: string, k: nat)
    requires k <= |order|
  {
    && after.Keys == tasks.Keys
    && forall t :: t in tasks ==>
         after[t] == if IsAmong(order, k, t) && IsToAbort(tasks[t], cluster, controlPlane)
                     then tasks[t].(phase := Abort) else tasks[t]
  }

  predicate IsAmong(order: seq<string>, k: nat, t: string)
    requires k <= |order|
  {
    exists j :: 0 <= j < k && order[j] == t
  }

  lemma AmongStep(order: seq<string>, p: nat, t: string)
    requires order != [] && p <= |order[1..]|
    ensures IsAmong(order, p + 1, t) <==> t == order[0] || IsAmong(order[1..], p, t)
  {
    if j :| 0 <= j < p && order[1..][j] == t {
      assert order[j + 1] == t;
    }
    if j :| 0 < j < p + 1 && order[j] == t {
      assert order[1..][j - 1] == t;
    }
  }

  lemma StopsAtStep(
    tasks: map<string, UpdateTask>, next: map<string, UpdateTask>, order: seq<string>, cluster: string,
    controlPlane: string, calls: HandlerCalls, p: nat)
    requires order != [] && order[0] !in order[1..] && !StopsAborting(tasks, order[0], cluster, controlPlane, calls)
    requires forall t :: t != order[0] ==> (t in next <==> t in tasks) && (t in tasks ==> next[t] == tasks[t])
    requires AbortingStopsAt(next, order[1..], cluster, controlPlane, calls, p)
    ensures AbortingStopsAt(tasks, order, cluster, controlPlane, calls, p + 1)
  {
    forall j | 0 < j < |order|
      ensures StopsAborting(tasks, order[j], cluster, controlPlane, calls) <==>
              StopsAborting(next, order[1..][j - 1], cluster, controlPlane, calls)
    {
      assert order[j] == order[1..][j - 1] && order[j] in order[1..];
    }
  }

  lemma AbortedStep(
    tasks: map<string, UpdateTask>, next: map<string, UpdateTask>, after: map<string, UpdateTask>, order: seq<string>,
    cluster: string, controlPlane: string, p: nat)
    requires order != [] && order[0] !in order[1..] && p <= |order[1..]|
    requires next == if order[0] in tasks && IsToAbort(tasks[order[0]], cluster, controlPlane)
                     then tasks[order[0] := tasks[order[0]].(phase := Abort)] else tasks
    requires AbortedUpTo(next, after, order[1..], cluster, controlPlane, p)
    ensures AbortedUpTo(tasks, after, order, cluster, controlPlane, p + 1)
  {
    forall t: string ensures IsAmong(order, p + 1, t) <==> t == order[0] || IsAmong(order[1..], p, t) {
      AmongStep(order, p, t);
    }
    assert !IsAmong(order[1..], p, order[0]);
  }

  /** The loop goes through the tasks in list order, up to the first one without control plane, where it panics, or
      whose abort fails, where the request is rejected. Of the tasks before, exactly those of the cluster and the
      control plane that are in progress are in phase Abort, and no other task has changed. */
  lemma {:induction false} AbortPrefix(
    tasks: map<string, UpdateTask>, order: seq<string>, cluster: string, controlPlane: string, calls: HandlerCalls)
    returns (k: nat)
    requires forall i, j :: 0 <= i < |order| && 0 <= j < |order| && order[i] == order[j] ==> i == j
    ensures AbortingStopsAt(tasks, order, cluster, controlPlane, calls, k)
    ensures var r := AbortOld(tasks, order, cluster, controlPlane, calls);
      && AbortedUpTo(tasks, r.tasks, order, cluster, controlPlane, k)
      && r.stop == (if k == |order| then None
                    else Some(if tasks[order[k]].controlPlane.None? then Panicked else Rejected))
    decreases order
  {
    k := 0;
    if order != [] {
      var next := AbortOldStep(tasks, order, cluster, controlPlane, calls);
      assert order == [order[0]] + order[1..] && order[0] !in order[1..];
      if !StopsAborting(tasks, order[0], cluster, controlPlane, calls) {
        var p := AbortPrefix(next, order[1..], cluster, controlPlane, calls);
        StopsAtStep(tasks, next, order, cluster, controlPlane, calls, p);
        AbortedStep(tasks, next, AbortOld(next, order[1..], cluster, controlPlane, calls).tasks, order, cluster,
                    controlPlane, p);
        k := p + 1;
        if k < |order| { assert order[k] == order[1..][p] && order[k] in order[1..]; }
      }
    }
  }

  /******* The annotation loop *******/

  // What ends the loop at a machine.
  function StopsAnnotating(m: Machine, calls: HandlerCalls): Option<Answer> {
    if m.name in calls.machineHelpers then Some(Rejected)
    else if m.annotations.None? then Some(Panicked)
    else if m.name in calls.machinePatches then Some(Accepted)
    else None
  }

  // The machine with its annotation set, its other annotations kept and its condition deleted.
  predicate IsTakenFrom(before: Machine, after: Machine, taskName: string) {
    && before.annotations.Some?
    && after == before.(annotations := Some(before.annotations.value[UpdateTaskAnnotation := taskName]),
                        upToDate := NotSet)
  }

  lemma {:induction false} AnnotateFrom(
    stored: seq<Machine>, original: seq<Machine>, todo: seq<Machine>, i: nat, taskName: string, calls: HandlerCalls)
    returns (k: nat)
    requires |stored| == |original| && DistinctNames(original) && DistinctNames(todo) && i <= |todo|
    requires forall m :: m in todo ==> m in original
    requires forall j :: 0 <= j < i ==> StopsAnnotating(todo[j], calls).None?
    requires forall j :: 0 <= j < |stored| ==>
      if original[j] in todo[..i] then IsTakenFrom(original[j], stored[j], taskName) else stored[j] == original[j]
    ensures i <= k <= |todo| && forall j :: 0 <= j < k ==> StopsAnnotating(todo[j], calls).None?
    ensures k < |todo| ==> StopsAnnotating(todo[k], calls).Some?
    ensures var r := AnnotateAll(stored, todo[i..], taskName, calls);
      && r.stop == (if k == |todo| then None else StopsAnnotating(todo[k], calls))
      && |r.machines| == |original|
      && forall j :: 0 <= j < |original| ==>
           if original[j] in todo[..k] then IsTakenFrom(original[j], r.machines[j], taskName)
           else r.machines[j] == original[j]
    decreases |todo| - i
  {
    k := i;
    if i < |todo| {
      var m := todo[i];
      assert todo[i..][0] == m && todo[i..][1..] == todo[i + 1..] && todo[..i + 1] == todo[..i] + [m] && m in todo;
      if StopsAnnotating(m, calls).None? {
        AnnotateOne(stored, original, todo, i, taskName);
        k := AnnotateFrom(AnnotateListed(stored, m, taskName), original, todo, i + 1, taskName, calls);
      }
    } else {
      assert todo[i..] == [] && todo[..i] == todo;
    }
  }

  lemma AnnotateOne(stored: seq<Machine>, original: seq<Machine>, todo: seq<Machine>, i: nat, taskName: string)
    requires |stored| == |original| && DistinctNames(original) && DistinctNames(todo) && i < |todo|
    requires (forall m :: m in todo ==> m in original) && todo[i].annotations.Some?
    requires forall j :: 0 <= j < |stored| ==>
      if original[j] in todo[..i] then IsTakenFrom(original[j], stored[j], taskName) else stored[j] == original[j]
    ensures var next := AnnotateListed(stored, todo[i], taskName);
      forall j :: 0 <= j < |stored| ==>
        if original[j] in todo[..i + 1] then IsTakenFrom(original[j], next[j], taskName) else next[j] == original[j]
  {
    var m := todo[i];
    assert todo[..i + 1] == todo[..i] + [m] && m in todo;
    forall j | 0 <= j < |stored| ensures stored[j].name == m.name <==> original[j] == m {
      var p :| 0 <= p < |original| && original[p] == m;
    }
  }

  // A control-plane machine of the cluster.
  predicate IsPlaneMachine(m: Machine, cluster: string) {
    && ClusterName in m.labels && m.labels[ClusterName] == cluster
    && ControlPlaneLabel in m.labels && m.labels[ControlPlaneLabel] == ""
  }

  lemma PlaneMachines(machines: seq<Machine>, cluster: string)
    ensures forall m :: m in WithLabels(machines, ControlPlaneSelector(cluster)) <==>
                        m in machines && IsPlaneMachine(m, cluster)
  {
    forall m: Machine ensures Matches(m.labels, ControlPlaneSelector(cluster)) <==> IsPlaneMachine(m, cluster) {
    }
  }

  /** The loop goes through the control-plane machines of the cluster in list order, up to the first whose patch cannot
      be built (rejected), that has no annotations (panic), or whose patch fails (accepted). Exactly those before
      are annotated for the new task, with their other annotations kept and without condition; no other machine
      has changed. */
  lemma AnnotatePrefix(machines: seq<Machine>, cluster: string, taskName: string, calls: HandlerCalls)
    returns (todo: seq<Machine>, k: nat)
    requires DistinctNames(machines)
    ensures todo == WithLabels(machines, ControlPlaneSelector(cluster))
    ensures forall m :: m in todo <==> m in machines && IsPlaneMachine(m, cluster)
    ensures k <= |todo| && forall j :: 0 <= j < k ==> StopsAnnotating(todo[j], calls).None?
    ensures k < |todo| ==> StopsAnnotating(todo[k], calls).Some?
    ensures var r := AnnotateAll(machines, todo, taskName, calls);
      && r.stop == (if k == |todo| then None else StopsAnnotating(todo[k], calls))
      && |r.machines| == |machines|
      && forall i :: 0 <= i < |machines| ==>
           if machines[i] in todo[..k] then IsTakenFrom(machines[i], r.machines[i], taskName)
           else r.machines[i] == machines[i]
  {
    todo := WithLabels(machines, ControlPlaneSelector(cluster));
    PlaneMachines(machines, cluster);
    WithLabelsDistinct(machines, ControlPlaneSelector(cluster));
    assert todo[0..] == todo;
    k := AnnotateFrom(machines, machines, todo, 0, taskName, calls);
  }
}
