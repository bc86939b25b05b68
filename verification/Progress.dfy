/** Progress: a rollout ends. The measure 2 * (machines waiting) + (node tasks running) never rises and falls
    with every creation and every completion; reconciles that find the rollout undisturbed and at rest reach
    Updated, whatever all actors do in between. */
module Progress {
  import opened UpdateTypes
  import opened Objects
  import opened Nodes
  import opened Scopes
  import opened Status
  import opened ControlPlanes
  import opened Rollout
  import opened RolloutFacts
  import opened Protocol
  import opened Invariants
  import opened Ordered
  import opened Membership
  import opened Refinement
  import opened Outcomes
  import opened Guarantees

  /******* The measure *******/

  function Missing(q: seq<string>, ns: seq<NodeTask>): set<int> {
    set i | 0 <= i < |q| && !HasNode(ns, q[i])
  }

  function Running(ns: seq<NodeTask>): nat {
    if ns == [] then 0 else (if IsTerminated(StateOf(ns[0])) then 0 else 1) + Running(ns[1..])
  }

  // How many machines in scope have no node task.
  ghost function Waiting(s: Store, t: string): nat
    requires t in s.tasks
  {
    |Missing(Queue(s, t), Mine(s, t))|
  }

  ghost function Measure(s: Store, t: string): nat
    requires t in s.tasks
  {
    2 * Waiting(s, t) + Running(Mine(s, t))
  }

  lemma {:induction false} RunningConcat(a: seq<NodeTask>, b: seq<NodeTask>)
    ensures Running(a + b) == Running(a) + Running(b)
  {
    if a == [] {
      assert a + b == b;
    } else {
      assert (a + b)[1..] == a[1..] + b;
      RunningConcat(a[1..], b);
    }
  }

  lemma {:induction false} RunningZero(ns: seq<NodeTask>)
    ensures Running(ns) == 0 <==> forall n :: n in ns ==> IsTerminated(StateOf(n))
  {
    if ns != [] {
      assert forall n :: n in ns <==> n == ns[0] || n in ns[1..];
      RunningZero(ns[1..]);
    }
  }

  lemma RunningAround(front: seq<NodeTask>, n: NodeTask, back: seq<NodeTask>)
    ensures Running(front + [n] + back) == Running(front) + Running(back) + if IsTerminated(StateOf(n)) then 0 else 1
  {
    RunningConcat(front + [n], back);
    RunningConcat(front, [n]);
  }

  lemma RunningInsert(ns: seq<NodeTask>, k: nat, n: NodeTask)
    requires k <= |ns| && !IsTerminated(StateOf(n))
    ensures Running(Insert(ns, k, n)) == Running(ns) + 1
  {
    var front, back := ns[..k], ns[k..];
    assert ns == front + back;
    assert Insert(ns, k, n) == front + [n] + back;
    RunningSplit(front, n, back);
  }

  lemma RunningSplit(front: seq<NodeTask>, n: NodeTask, back: seq<NodeTask>)
    requires !IsTerminated(StateOf(n))
    ensures Running(front + [n] + back) == Running(front + back) + 1
  {
    RunningAround(front, n, back);
    RunningConcat(front, back);
  }

  lemma MissingLess(q: seq<string>, ns: seq<NodeTask>, p: nat, k: nat, n: NodeTask)
    requires DistinctQueue(q) && p < |q| && !HasNode(ns, q[p]) && k <= |ns| && n.machineName == Some(q[p])
    ensures |Missing(q, Insert(ns, k, n))| == |Missing(q, ns)| - 1
  {
    assert forall x :: x in Insert(ns, k, n) <==> x in ns || x == n;
    forall i | 0 <= i < |q| ensures HasNode(Insert(ns, k, n), q[i]) <==> HasNode(ns, q[i]) || i == p {
    }
    assert Missing(q, Insert(ns, k, n)) == Missing(q, ns) - {p};
  }

  lemma MissingLater(q: seq<string>, a: seq<NodeTask>, b: seq<NodeTask>)
    requires Later(a, b)
    ensures Missing(q, a) == Missing(q, b)
  {
    forall i | 0 <= i < |q| ensures HasNode(a, q[i]) <==> HasNode(b, q[i]) {
      LaterHasNode(a, b, q[i]);
    }
  }

  /** A rollout without node tasks starts at twice the machines in scope. */
  lemma MeasureBound(s: Store, t: string)
    requires t in s.tasks
    ensures Waiting(s, t) <= |Queue(s, t)|
    ensures Mine(s, t) == [] ==> Measure(s, t) == 2 * |Queue(s, t)|
  {
    var q := Queue(s, t);
    var all := Indices(|q|);
    assert Missing(q, Mine(s, t)) <= all;
    SubsetSize(Missing(q, Mine(s, t)), all);
    if Mine(s, t) == [] {
      assert Missing(q, []) == all;
    }
  }

  lemma SubsetSize(a: set<int>, b: set<int>)
    requires a <= b
    ensures |a| <= |b|
  {
    assert b == a + (b - a);
  }

  lemma {:induction false} RunningLater(a: seq<NodeTask>, b: seq<NodeTask>)
    requires Later(a, b)
    ensures Running(b) <= Running(a)
  {
    if a != [] {
      assert Evolves(a[0], b[0]);
      RunningLater(a[1..], b[1..]);
    }
  }

  // A provider reports a terminal state of a node task of task t; it was running until then.
  predicate Completes(w: World, a: Action, t: string)
    requires Enabled(w, a)
  {
    && a.Environment? && a.env.MoveNode? && IsTerminated(a.env.state)
    && t in w.store.tasks && BelongsTo(w.store.nodeTasks[a.env.index], KeyOf(w.store.tasks[t]))
  }

  /** While machines and scopes stay put, no step of any actor raises the measure or the number of waiting
      machines; every creation and every completion lowers it by one, whatever else is in flight. */
  lemma MeasureNeverRises(w: World, a: Action, t: string)
    requires IsOrderlyStep(w, a, t)
    ensures t in Next(w, a).store.tasks
    ensures Measure(Next(w, a).store, t) <= Measure(w.store, t) && Waiting(Next(w, a).store, t) <= Waiting(w.store, t)
    ensures CreatesFor(a, t) || Completes(w, a, t) ==> Measure(Next(w, a).store, t) == Measure(w.store, t) - 1
  {
    if CreatesFor(a, t) {
      CreationStep(w, t, a.generated);
    } else if Completes(w, a, t) {
      CompletionLowers(w.store, t, a.env.index, a.env.state);
      MoveIs(w, a.env.index, a.env.state);
    } else {
      OtherStep(w, a, t);
    }
  }

  lemma OtherStep(w: World, a: Action, t: string)
    requires IsOrderlyStep(w, a, t) && !CreatesFor(a, t)
    ensures t in Next(w, a).store.tasks
    ensures Measure(Next(w, a).store, t) <= Measure(w.store, t) && Waiting(Next(w, a).store, t) == Waiting(w.store, t)
  {
    OrderStep(w, a, t);
    MineEvolves(w, a, t);
    MissingLater(Queue(w.store, t), Mine(w.store, t), Mine(Next(w, a).store, t));
    RunningLater(Mine(w.store, t), Mine(Next(w, a).store, t));
  }

  lemma CreationLowers(w: World, t: string, k: nat, n: NodeTask)
    requires OrderInv(w, t) && HasTarget(w, t) && DistinctNames(w.store.machines)
    requires k <= |Mine(w.store, t)| && n.machineName == Some(Target(w.flights[t].scope).value.name) && n.state.None?
    ensures var q, mine, mine' := Queue(w.store, t), Mine(w.store, t), Insert(Mine(w.store, t), k, n);
      |Missing(q, mine')| == |Missing(q, mine)| - 1 && Running(mine') == Running(mine) + 1
  {
    TargetIsNext(w, t);
    QueueDistinct(w.store, t);
    GrowLowers(Queue(w.store, t), Mine(w.store, t), k, n);
  }

  lemma CreationStep(w: World, t: string, g: Generated)
    requires IsOrderlyStep(w, CreateNode(t, g), t)
    ensures var s' := Next(w, CreateNode(t, g)).store;
      t in s'.tasks && Measure(s', t) == Measure(w.store, t) - 1 && Waiting(s', t) < Waiting(w.store, t)
  {
    assert FlightOk(w, t);
    QueueStep(w, CreateNode(t, g), t);
    var k := MineGrows(w, CreateNode(t, g), t);
    CreationLowers(w, t, k, NodeFor(w, w.flights[t], g));
  }

  lemma GrowLowers(q: seq<string>, mine: seq<NodeTask>, k: nat, n: NodeTask)
    requires DistinctQueue(q) && InOrder(q, mine) && k <= |mine| < |q|
    requires n.machineName == Some(q[|mine|]) && n.state.None?
    ensures |Missing(q, Insert(mine, k, n))| == |Missing(q, mine)| - 1
    ensures Running(Insert(mine, k, n)) == Running(mine) + 1
  {
    MissingLess(q, mine, |mine|, k, n);
    RunningInsert(mine, k, n);
  }

  lemma QueueDistinct(s: Store, t: string)
    requires DistinctNames(s.machines) && t in s.tasks
    ensures DistinctQueue(Queue(s, t))
  {
    SelectedDistinct(s, s.tasks[t]);
    NamesDistinct(SortedByCreation(Selected(s, s.tasks[t])), t);
  }

  lemma CompletedMine(s: Store, t: string, i: nat, st: State)
    returns (front: seq<NodeTask>, n: NodeTask, back: seq<NodeTask>)
    requires t in s.tasks && IsRunningMine(s, t, i)
    ensures !IsTerminated(StateOf(n)) && Mine(s, t) == front + [n] + back
    ensures Mine(Moved(s, i, st), t) == front + [n.(state := Some(st))] + back
  {
    var ns, key := s.nodeTasks, KeyOf(s.tasks[t]);
    var ns' := Moved(s, i, st).nodeTasks;
    n := ns[i];
    front, back := Listed(ns[..i], key), Listed(ns[i + 1..], key);
    ListedAround(ns, i, key);
    ListedAround(ns', i, key);
    assert ns'[..i] == ns[..i] && ns'[i + 1..] == ns[i + 1..];
  }

  predicate IsRunningMine(s: Store, t: string, i: nat)
    requires t in s.tasks
  {
    i < |s.nodeTasks| && BelongsTo(s.nodeTasks[i], KeyOf(s.tasks[t])) && !IsTerminated(StateOf(s.nodeTasks[i]))
  }

  function Moved(s: Store, i: nat, st: State): Store
    requires i < |s.nodeTasks|
  {
    s.(nodeTasks := s.nodeTasks[i := s.nodeTasks[i].(state := Some(st))])
  }

  lemma CompletedAround(q: seq<string>, front: seq<NodeTask>, n: NodeTask, st: State, back: seq<NodeTask>)
    requires !IsTerminated(StateOf(n)) && IsTerminated(st)
    ensures var a, b := front + [n] + back, front + [n.(state := Some(st))] + back;
      Missing(q, a) == Missing(q, b) && Running(b) == Running(a) - 1
  {
    var n' := n.(state := Some(st));
    RunningAround(front, n, back);
    RunningAround(front, n', back);
    MissingLater(q, front + [n] + back, front + [n'] + back);
  }

  // Any completion lowers the measure, whatever the state it ends in.
  lemma CompletionLowers(s: Store, t: string, i: nat, st: State)
    requires t in s.tasks && IsRunningMine(s, t, i) && IsTerminated(st)
    ensures Measure(Moved(s, i, st), t) == Measure(s, t) - 1 && Waiting(Moved(s, i, st), t) == Waiting(s, t)
  {
    var front, n, back := CompletedMine(s, t, i, st);
    CompletedAround(Queue(s, t), front, n, st, back);
  }

  lemma ListedAround(ns: seq<NodeTask>, i: nat, key: NodeKey)
    requires i < |ns| && BelongsTo(ns[i], key)
    ensures Listed(ns, key) == Listed(ns[..i], key) + [ns[i]] + Listed(ns[i + 1..], key)
  {
    assert ns == ns[..i] + [ns[i]] + ns[i + 1..];
    ListedConcat(ns[..i] + [ns[i]], ns[i + 1..], key);
    ListedConcat(ns[..i], [ns[i]], key);
    assert Listed([ns[i]], key) == [ns[i]];
  }

  // How many creations and completions for task t a run holds.
  ghost function Advances(w: World, run: seq<Action>, t: string): nat
    requires IsRun(w, run)
    decreases run
  {
    if run == [] then 0
    else (if CreatesFor(run[0], t) || Completes(w, run[0], t) then 1 else 0) + Advances(Next(w, run[0]), run[1..], t)
  }

  lemma {:induction false} AdvancesLower(w: World, run: seq<Action>, t: string)
    requires Inv(w) && OrderInv(w, t) && IsRun(w, run)
    requires forall a :: a in run ==> KeepsMachines(a)
    ensures t in End(w, run).store.tasks
    ensures Advances(w, run, t) + Measure(End(w, run).store, t) <= Measure(w.store, t)
    ensures Waiting(End(w, run).store, t) <= Waiting(w.store, t)
    decreases run
  {
    if run != [] {
      assert run[0] in run && forall a :: a in run[1..] ==> a in run;
      MeasureNeverRises(w, run[0], t);
      OrderStep(w, run[0], t);
      InvStep(w, run[0]);
      AdvancesLower(Next(w, run[0]), run[1..], t);
    }
  }

  // Every node task counts once when it is created and once when it is completed.
  ghost function Gained(s: Store, t: string): int
    requires t in s.tasks
  {
    2 * |Mine(s, t)| - Running(Mine(s, t))
  }

  lemma CompletionGains(s: Store, t: string, i: nat, st: State)
    requires t in s.tasks && IsRunningMine(s, t, i) && IsTerminated(st)
    ensures Gained(Moved(s, i, st), t) == Gained(s, t) + 1
  {
    var front, n, back := CompletedMine(s, t, i, st);
    CompletedAround([], front, n, st, back);
  }

  lemma CreationGains(w: World, t: string, g: Generated)
    requires FlightsOk(w) && Enabled(w, CreateNode(t, g)) && t in w.store.tasks
    ensures t in Next(w, CreateNode(t, g)).store.tasks
    ensures Gained(Next(w, CreateNode(t, g)).store, t) == Gained(w.store, t) + 1
  {
    var k := MineGrows(w, CreateNode(t, g), t);
    RunningInsert(Mine(w.store, t), k, NodeFor(w, w.flights[t], g));
  }

  lemma GainedStep(w: World, a: Action, t: string)
    requires Inv(w) && Enabled(w, a) && t in w.store.tasks
    ensures t in Next(w, a).store.tasks && Gained(Next(w, a).store, t) >= Gained(w.store, t)
    ensures CreatesFor(a, t) || Completes(w, a, t) ==> Gained(Next(w, a).store, t) == Gained(w.store, t) + 1
  {
    if CreatesFor(a, t) {
      CreationGains(w, t, a.generated);
    } else if Completes(w, a, t) {
      CompletionGains(w.store, t, a.env.index, a.env.state);
      MoveIs(w, a.env.index, a.env.state);
    } else {
      MineEvolves(w, a, t);
      RunningLater(Mine(w.store, t), Mine(Next(w, a).store, t));
    }
  }

  lemma {:induction false} AdvancesGain(w: World, run: seq<Action>, t: string)
    requires Inv(w) && t in w.store.tasks && IsRun(w, run)
    ensures t in End(w, run).store.tasks
    ensures Gained(w.store, t) + Advances(w, run, t) <= Gained(End(w, run).store, t)
    decreases run
  {
    if run != [] {
      GainedStep(w, run[0], t);
      InvStep(w, run[0]);
      AdvancesGain(Next(w, run[0]), run[1..], t);
    }
  }

  /** Any run from a fresh store with N machines in scope of the task creates and completes at most 2N times for
      it, however it is interleaved and whatever machines leave, join or are handed over. */
  lemma AdvancesBounded(s: Store, run: seq<Action>, t: string)
    requires IsFreshStore(s) && t in s.tasks && IsRun(Initial(s), run)
    ensures Advances(Initial(s), run, t) <= 2 * |Queue(s, t)|
  {
    FreshStoreInv(s);
    NodesBounded(s, run, t);
    AdvancesGain(Initial(s), run, t);
  }

  /******* Undisturbed rollouts *******/

  // The states an undisturbed rollout reads.
  predicate IsGood(n: NodeTask) {
    IsReadable(n) && (StateOf(n).Unknown? || StateOf(n).InProgress? || StateOf(n).Updated?)
  }

  // In the Update phase, nothing failed or aborted so far, the gate open, a template to create from.
  ghost predicate IsUndisturbed(s: Store, t: string) {
    && ValidStore(s) && t in s.tasks
    && var task := s.tasks[t];
    && task.finalizer && !IsTerminated(task.state) && task.phase.Update? && !task.deleting
    && HasScope(s, task) && task.templateRef in s.templates && GateOpen(s, task)
    && forall n :: n in Mine(s, t) ==> IsGood(n)
  }

  // The calls of the reconcile succeed: the generated name is new.
  predicate AllSucceed(s: Store, calls: Calls) {
    && calls == NO_FAILURES.(generated := calls.generated)
    && forall n :: n in s.nodeTasks ==> n.name != calls.generated.name
  }

  // At rest: undisturbed, with no node task running, and the next reconcile meets no failing call.
  ghost predicate IsAtRest(s: Store, t: string, calls: Calls) {
    IsUndisturbed(s, t) && Running(Mine(s, t)) == 0 && AllSucceed(s, calls)
  }

  lemma GoodAround(front: seq<NodeTask>, n: NodeTask, back: seq<NodeTask>)
    requires forall x :: x in front + [n] + back ==> IsGood(x)
    ensures forall x :: x in front + [n.(state := Some(Updated))] + back ==> IsGood(x)
  {
    var n' := n.(state := Some(Updated));
    assert n in front + [n] + back;
    assert forall x :: x in front + [n'] + back ==> x in front + [n] + back || x == n';
  }

  // A node task that gets Updated leaves the rollout undisturbed.
  lemma CompletionUndisturbed(s: Store, t: string, i: nat)
    requires IsUndisturbed(s, t) && IsRunningMine(s, t, i)
    ensures IsUndisturbed(Moved(s, i, Updated), t)
  {
    var front, n, back := CompletedMine(s, t, i, Updated);
    GoodAround(front, n, back);
    SameGate(s, Moved(s, i, Updated), s.tasks[t], s.tasks[t], NO_FAILURES);
  }

  /******* The reconcile of an undisturbed rollout *******/

  // With nothing running, the loop over the node tasks goes through and every newest state is Updated.
  lemma QuietMeansOpen(s: Store, t: string)
    requires IsUndisturbed(s, t) && Running(Mine(s, t)) == 0
    ensures AllReadable(Mine(s, t)) && NodeGate(Mine(s, t)).Open?
    ensures forall x :: x in Newest(Statuses(Mine(s, t))) ==> Newest(Statuses(Mine(s, t)))[x].state.Updated?
  {
    var mine := Mine(s, t);
    RunningZero(mine);
    forall x | x in Newest(Statuses(mine)) ensures Newest(Statuses(mine))[x].state.Updated? {
      var k := NewestAt(Statuses(mine), x);
      assert mine[k] in mine;
    }
  }

  // Then either no machine is next and the task is Updated, or one is next and it is not.
  lemma QuietState(s: Store, t: string)
    requires IsUndisturbed(s, t) && Running(Mine(s, t)) == 0
    ensures AllReadable(Mine(s, t))
    ensures var scope := ScopeFor(s, s.tasks[t]);
      StatusState(scope) == if Target(scope).None? then Updated else InProgress
  {
    QuietMeansOpen(s, t);
    var scope := ScopeFor(s, s.tasks[t]);
    UpdatedIsExact(scope);
    SortedMembers(scope.machines);
    if Target(scope).None? {
      NoneNext(SortedByCreation(scope.machines), NewestOf(scope.nodes).Keys, t);
    } else {
      NextMachineIsNew(SortedByCreation(scope.machines), NewestOf(scope.nodes).Keys, t);
    }
  }

  // The store and the task once the status is reported.
  ghost function Reported(s: Store, t: string, calls: Calls): Work
    requires t in s.tasks && AllReadable(Mine(s, t))
  {
    StatusWork(s, ScopeFor(s, s.tasks[t]), calls)
  }

  lemma ReportedGate(s: Store, t: string, calls: Calls)
    requires IsAtRest(s, t, calls)
    ensures AllReadable(Mine(s, t))
    ensures var w := Reported(s, t, calls); GateSpec(w.store, w.task, calls) == Checked(NO_RESULT)
  {
    var w := Reported(s, t, calls);
    PatchesKeep(s, s.tasks[t], calls);
    SameGate(s, w.store, s.tasks[t], w.task, NO_FAILURES);
    SameGateCalls(w.store, w.task, calls);
  }

  // What the work between snapshot and deferred function is, when the calls succeed.
  lemma QuietWork(s: Store, t: string, calls: Calls)
    requires IsAtRest(s, t, calls)
    ensures AllReadable(Mine(s, t))
    ensures var scope, w := ScopeFor(s, s.tasks[t]), Reported(s, t, calls);
      LoadedWork(s, s.tasks[t], calls) ==
      CreateWork(w.store, scope.machines, NewestOf(scope.nodes).Keys, w.task, calls)
  {
    QuietMeansOpen(s, t);
    ReportedGate(s, t, calls);
  }

  lemma SameGateCalls(s: Store, t: UpdateTask, calls: Calls)
    requires !calls.getControlPlane && !calls.listControlPlaneMachines
    ensures GateSpec(s, t, calls) == GateSpec(s, t, NO_FAILURES)
  {
  }

  /** A reconcile of a rollout at rest either reports Updated or creates one node task for a waiting machine. */
  lemma ReconcileAtRest(s: Store, t: string, calls: Calls)
    requires IsAtRest(s, t, calls)
    ensures var s' := Reconciled(s, t, calls).store;
      && t in s'.tasks
      && (s'.tasks[t].state.Updated? ||
          (IsUndisturbed(s', t) && Waiting(s', t) == Waiting(s, t) - 1 && Measure(s', t) == Measure(s, t) - 1))
  {
    QuietWork(s, t, calls);
    QuietState(s, t);
    if Target(ScopeFor(s, s.tasks[t])).Some? {
      CreatingReconcile(s, t, calls);
    }
  }

  lemma CreatedStore(s: Store, t: string, calls: Calls)
    requires IsAtRest(s, t, calls) && Target(ScopeFor(s, s.tasks[t])).Some?
    ensures AllReadable(Mine(s, t))
    ensures var scope := ScopeFor(s, s.tasks[t]);
      var t1 := s.tasks[t].(state := InProgress);
      var n := NewNodeTask(s.tasks[t], Target(scope).value.name, s.templates[s.tasks[t].templateRef], calls.generated);
      Reconciled(s, t, calls).store ==
        s.(machines := StatusMachines(s, scope, calls),
           nodeTasks := Insert(s.nodeTasks, calls.generated.position, n),
           tasks := s.tasks[t := MarkTask(t1)])
      && !NodeExists(s.nodeTasks, n)
  {
    QuietWork(s, t, calls);
    QuietState(s, t);
  }

  lemma CreatedMine(s: Store, t: string, calls: Calls) returns (k: nat, n: NodeTask)
    requires IsAtRest(s, t, calls) && Target(ScopeFor(s, s.tasks[t])).Some?
    ensures var s' := Reconciled(s, t, calls).store;
      && t in s'.tasks && k <= |Mine(s, t)| && Mine(s', t) == Insert(Mine(s, t), k, n)
      && n.state.None? && IsReadable(n) && n.machineName == Some(Target(ScopeFor(s, s.tasks[t])).value.name)
      && !NodeExists(s.nodeTasks, n) && s'.nodeTasks == Insert(s.nodeTasks, calls.generated.position, n)
      && s'.tasks == s.tasks[t := MarkTask(s.tasks[t].(state := InProgress))]
      && s'.clusters == s.clusters && s'.templates == s.templates && s'.controlPlanes == s.controlPlanes
      && SameButConditions(s.machines, s'.machines)
  {
    CreatedStore(s, t, calls);
    PatchesKeep(s, s.tasks[t], calls);
    n := NewNodeTask(s.tasks[t], Target(ScopeFor(s, s.tasks[t])).value.name, s.templates[s.tasks[t].templateRef],
                     calls.generated);
    k := ListedInsert(s.nodeTasks, calls.generated.position, n, KeyOf(s.tasks[t]));
  }

  lemma CreatedGate(s: Store, t: string, calls: Calls)
    requires IsAtRest(s, t, calls) && Target(ScopeFor(s, s.tasks[t])).Some?
    ensures var s' := Reconciled(s, t, calls).store;
      t in s'.tasks && GateOpen(s', s'.tasks[t])
  {
    var k, n := CreatedMine(s, t, calls);
    var s' := Reconciled(s, t, calls).store;
    SameGate(s, s', s.tasks[t], s'.tasks[t], NO_FAILURES);
  }

  lemma CreatingReconcile(s: Store, t: string, calls: Calls)
    requires IsAtRest(s, t, calls) && Target(ScopeFor(s, s.tasks[t])).Some?
    ensures var s' := Reconciled(s, t, calls).store;
      && t in s'.tasks && IsUndisturbed(s', t)
      && Waiting(s', t) == Waiting(s, t) - 1 && Measure(s', t) == Measure(s, t) - 1
  {
    CreatedGate(s, t, calls);
    var k, n := CreatedMine(s, t, calls);
    var s' := Reconciled(s, t, calls).store;
    UndisturbedAfterCreation(s, s', t, k, n);
    MeasureAfterCreation(s, s', t, k, n);
  }

  lemma UndisturbedAfterCreation(s: Store, s': Store, t: string, k: nat, n: NodeTask)
    requires IsUndisturbed(s, t) && t in s'.tasks && GateOpen(s', s'.tasks[t])
    requires SameButConditions(s.machines, s'.machines) && s'.clusters == s.clusters && s'.templates == s.templates
    requires s'.tasks == s.tasks[t := MarkTask(s.tasks[t].(state := InProgress))]
    requires !NodeExists(s.nodeTasks, n) && n.state.None? && IsReadable(n)
    requires exists p: nat :: s'.nodeTasks == Insert(s.nodeTasks, p, n)
    requires k <= |Mine(s, t)| && Mine(s', t) == Insert(Mine(s, t), k, n)
    ensures IsUndisturbed(s', t)
  {
    assert forall x :: x in Mine(s', t) <==> x in Mine(s, t) || x == n;
    var p: nat :| s'.nodeTasks == Insert(s.nodeTasks, p, n);
    InsertDistinctNodes(s.nodeTasks, p, n);
  }

  lemma MeasureAfterCreation(s: Store, s': Store, t: string, k: nat, n: NodeTask)
    requires ValidStore(s) && t in s.tasks && t in s'.tasks && AllReadable(Mine(s, t))
    requires SameButConditions(s.machines, s'.machines) && Selector(s'.tasks[t]) == Selector(s.tasks[t])
    requires Target(ScopeFor(s, s.tasks[t])).Some? && n.machineName == Some(Target(ScopeFor(s, s.tasks[t])).value.name)
    requires k <= |Mine(s, t)| && Mine(s', t) == Insert(Mine(s, t), k, n) && n.state.None?
    ensures Waiting(s', t) == Waiting(s, t) - 1 && Measure(s', t) == Measure(s, t) - 1
  {
    var q, mine := Queue(s, t), Mine(s, t);
    SameSelected(s, s', t);
    QueueDistinct(s, t);
    var p := NextIsFirst(SortedByCreation(Selected(s, s.tasks[t])), NewestOf(mine).Keys, t);
    KnownMachines(mine, q[p]);
    MissingLess(q, mine, p, k, n);
    RunningInsert(mine, k, n);
  }

  lemma SameSelected(s: Store, s': Store, t: string)
    requires t in s.tasks && t in s'.tasks && Selector(s'.tasks[t]) == Selector(s.tasks[t])
    requires SameButConditions(s.machines, s'.machines)
    ensures Queue(s', t) == Queue(s, t)
  {
    assert forall i :: 0 <= i < |s.machines| ==> SameMachine(s.machines[i], s'.machines[i]);
    if Selector(s.tasks[t]).Some? {
      SameSelection(s.machines, s'.machines, Selector(s.tasks[t]).value);
    }
    SameQueue(Selected(s, s.tasks[t]), Selected(s', s'.tasks[t]), t);
  }

  /******* The end of the rollout *******/

  // A reconcile of a rollout at rest, or any run of all actors that moves no machine.
  datatype Turn = Reconcile(calls: Calls) | Others(run: seq<Action>)

  ghost predicate CanTurn(w: World, t: string, turn: Turn) {
    match turn
    case Reconcile(calls) => t !in w.flights && IsAtRest(w.store, t, calls)
    case Others(run) => IsRun(w, run) && forall a :: a in run ==> KeepsMachines(a)
  }

  ghost function AfterTurn(w: World, t: string, turn: Turn): World
    requires CanTurn(w, t, turn)
  {
    match turn
    case Reconcile(calls) => w.(store := Reconciled(w.store, t, calls).store)
    case Others(run) => End(w, run)
  }

  ghost predicate AreTurns(w: World, t: string, turns: seq<Turn>)
    decreases turns
  {
    turns == [] || (CanTurn(w, t, turns[0]) && AreTurns(AfterTurn(w, t, turns[0]), t, turns[1..]))
  }

  ghost function AfterTurns(w: World, t: string, turns: seq<Turn>): World
    requires AreTurns(w, t, turns)
    decreases turns
  {
    if turns == [] then w else AfterTurns(AfterTurn(w, t, turns[0]), t, turns[1..])
  }

  function Reconciles(turns: seq<Turn>): nat {
    if turns == [] then 0 else (if turns[0].Reconcile? then 1 else 0) + Reconciles(turns[1..])
  }

  predicate HasUpdatedState(w: World, t: string) {
    t in w.store.tasks && w.store.tasks[t].state.Updated?
  }

  // A turn on the way of an ordered rollout.
  ghost predicate IsOrderlyTurn(w: World, t: string, turn: Turn) {
    Inv(w) && OrderInv(w, t) && CanTurn(w, t, turn)
  }

  lemma TurnKeepsInv(w: World, t: string, turn: Turn)
    requires IsOrderlyTurn(w, t, turn)
    ensures Inv(AfterTurn(w, t, turn)) && OrderInv(AfterTurn(w, t, turn), t)
  {
    if turn.Reconcile? {
      var run := ReconcileIsRun(w, t, turn.calls);
      OrderRun(w, run, t);
      assert AfterTurn(w, t, turn) == End(w, run).(requests := w.requests, log := w.log);
    } else {
      OrderRun(w, turn.run, t);
    }
  }

  lemma TurnLowers(w: World, t: string, turn: Turn)
    requires IsOrderlyTurn(w, t, turn)
    ensures var w' := AfterTurn(w, t, turn);
      HasUpdatedState(w', t) ||
      (t in w'.store.tasks && Waiting(w'.store, t) + Reconciles([turn]) <= Waiting(w.store, t))
    ensures HasUpdatedState(w, t) ==> HasUpdatedState(AfterTurn(w, t, turn), t)
  {
    assert Reconciles([turn]) == if turn.Reconcile? then 1 else 0;
    if turn.Reconcile? {
      ReconcileAtRest(w.store, t, turn.calls);
    } else {
      AdvancesLower(w, turn.run, t);
      if HasUpdatedState(w, t) { TerminatedForEver(w, turn.run, t); }
    }
  }

  lemma {:induction false} TurnsLower(w: World, t: string, turns: seq<Turn>)
    requires Inv(w) && OrderInv(w, t) && AreTurns(w, t, turns)
    ensures HasUpdatedState(AfterTurns(w, t, turns), t) || Reconciles(turns) <= Waiting(w.store, t)
    ensures HasUpdatedState(w, t) ==> HasUpdatedState(AfterTurns(w, t, turns), t)
    decreases turns
  {
    if turns != [] {
      TurnKeepsInv(w, t, turns[0]);
      TurnLowers(w, t, turns[0]);
      TurnsLower(AfterTurn(w, t, turns[0]), t, turns[1..]);
    }
  }

  /** More reconciles at rest than there are machines waiting end in Updated, whatever all actors do between
      them as long as no machine and no scope moves: other reconciles of the same task that fail or wait, of
      other tasks, providers, aborts of other tasks, machines that turn unhealthy and recover. */
  lemma RolloutEnds(w: World, t: string, turns: seq<Turn>)
    requires Inv(w) && OrderInv(w, t) && AreTurns(w, t, turns) && Reconciles(turns) > Waiting(w.store, t)
    ensures HasUpdatedState(AfterTurns(w, t, turns), t)
  {
    TurnsLower(w, t, turns);
  }

  /** From a fresh store with N machines in scope, N + 1 reconciles at rest are enough. */
  lemma FreshRolloutEnds(s: Store, t: string, turns: seq<Turn>)
    requires IsFreshStore(s) && t in s.tasks && AreTurns(Initial(s), t, turns) && Reconciles(turns) > |Queue(s, t)|
    ensures HasUpdatedState(AfterTurns(Initial(s), t, turns), t)
  {
    FreshStoreInv(s);
    NoNodesInOrder(Initial(s), t);
    MeasureBound(s, t);
    RolloutEnds(Initial(s), t, turns);
  }

  /******* No dead end *******/

  function LongestName(ns: seq<NodeTask>): (r: nat)
    ensures forall n :: n in ns ==> |n.name| <= r
  {
    if ns == [] then 0
    else
      var r := LongestName(ns[1..]);
      if |ns[0].name| > r then |ns[0].name| else r
  }

  function SucceedingCalls(s: Store): (calls: Calls)
    ensures AllSucceed(s, calls)
  {
    NO_FAILURES.(generated := Generated(seq(LongestName(s.nodeTasks) + 1, _ => 'x'), 0, 0))
  }

  // An undisturbed rollout has a next turn, after which it is Updated or undisturbed and closer to its end.
  lemma TurnExists(w: World, t: string) returns (turn: Turn)
    requires Inv(w) && IsUndisturbed(w.store, t) && t !in w.flights
    ensures CanTurn(w, t, turn)
    ensures var w' := AfterTurn(w, t, turn);
      && t !in w'.flights
      && (HasUpdatedState(w', t) || (IsUndisturbed(w'.store, t) && Measure(w'.store, t) < Measure(w.store, t)))
  {
    if Running(Mine(w.store, t)) == 0 {
      turn := Reconcile(SucceedingCalls(w.store));
      ReconcileAtRest(w.store, t, turn.calls);
    } else {
      turn := CompletingTurn(w, t);
    }
  }

  lemma CompletingTurn(w: World, t: string) returns (turn: Turn)
    requires IsUndisturbed(w.store, t) && t !in w.flights && Running(Mine(w.store, t)) != 0
    ensures CanTurn(w, t, turn)
    ensures var w' := AfterTurn(w, t, turn);
      t !in w'.flights && IsUndisturbed(w'.store, t) && Measure(w'.store, t) < Measure(w.store, t)
  {
    var i := RunningOne(w.store, t);
    CompletionLowers(w.store, t, i, Updated);
    CompletionUndisturbed(w.store, t, i);
    MoveIs(w, i, Updated);
    OneStep(w, Environment(MoveNode(i, Updated)));
    turn := Others([Environment(MoveNode(i, Updated))]);
  }

  lemma RunningOne(s: Store, t: string) returns (i: nat)
    requires t in s.tasks && Running(Mine(s, t)) != 0
    ensures IsRunningMine(s, t, i)
  {
    RunningZero(Mine(s, t));
    var n :| n in Mine(s, t) && !IsTerminated(StateOf(n));
    ListedMembers(s.nodeTasks, KeyOf(s.tasks[t]));
    i :| 0 <= i < |s.nodeTasks| && s.nodeTasks[i] == n;
  }

  /** From every state in which the rollout is undisturbed, Updated can be reached. */
  lemma {:induction false} NoDeadEnd(w: World, t: string) returns (turns: seq<Turn>)
    requires Inv(w) && OrderInv(w, t) && IsUndisturbed(w.store, t) && t !in w.flights
    ensures AreTurns(w, t, turns) && HasUpdatedState(AfterTurns(w, t, turns), t)
    decreases Measure(w.store, t)
  {
    var turn := TurnExists(w, t);
    var w' := AfterTurn(w, t, turn);
    TurnKeepsInv(w, t, turn);
    var rest: seq<Turn> := [];
    if !HasUpdatedState(w', t) {
      rest := NoDeadEnd(w', t);
    }
    turns := [turn] + rest;
    assert turns[1..] == rest;
  }
}
