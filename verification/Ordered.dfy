/** Ordered rollout: while nobody moves machines or scopes, machines are taken in creation order, and
    there are at most as many node tasks as machines in scope. */
module Ordered {
  import opened Objects
  import opened Nodes
  import opened Scopes
  import opened Status
  import opened Rollout
  import opened RolloutFacts
  import opened Protocol
  import opened Invariants

  // The same machines in the same place, with the same labels and annotations.
  predicate SameMachine(a: Machine, b: Machine) {
    a.name == b.name && a.created == b.created && a.labels == b.labels && a.annotations == b.annotations
  }

  predicate SameMachines(a: seq<Machine>, b: seq<Machine>) {
    |a| == |b| && forall i :: 0 <= i < |a| ==> SameMachine(a[i], b[i])
  }

  lemma {:induction false} SameSelection(a: seq<Machine>, b: seq<Machine>, selector: Labels)
    requires SameMachines(a, b)
    ensures SameMachines(WithLabels(a, selector), WithLabels(b, selector))
  {
    if a != [] {
      SameSelection(a[1..], b[1..], selector);
    }
  }

  lemma SameConcat(a: seq<Machine>, b: seq<Machine>, a': seq<Machine>, b': seq<Machine>)
    requires SameMachines(a, b) && SameMachines(a', b')
    ensures SameMachines(a + a', b + b')
  {
  }

  lemma {:induction false} SameInsertion(x: Machine, y: Machine, a: seq<Machine>, b: seq<Machine>)
    requires SameMachine(x, y) && SameMachines(a, b)
    ensures SameMachines(InsertByCreation(x, a), InsertByCreation(y, b))
  {
    if a == [] {
    } else if Before(a[0], x) {
      assert SameMachine(a[0], b[0]) && Before(b[0], y);
      SameInsertion(x, y, a[1..], b[1..]);
      SameConcat([a[0]], [b[0]], InsertByCreation(x, a[1..]), InsertByCreation(y, b[1..]));
    } else {
      assert SameMachine(a[0], b[0]) && !Before(b[0], y);
      SameConcat([x], [y], a, b);
    }
  }

  lemma {:induction false} SameOrder(a: seq<Machine>, b: seq<Machine>)
    requires SameMachines(a, b)
    ensures SameMachines(SortedByCreation(a), SortedByCreation(b))
  {
    if a != [] {
      SameOrder(a[1..], b[1..]);
      SameInsertion(a[0], b[0], SortedByCreation(a[1..]), SortedByCreation(b[1..]));
    }
  }

  // The names of the machines in scope, in order.
  function InScopeNames(ms: seq<Machine>, taskName: string): seq<string> {
    if ms == [] then []
    else (if IsMachineInUpdateScope(ms[0], taskName) then [ms[0].name] else []) + InScopeNames(ms[1..], taskName)
  }

  lemma {:induction false} SameNames(a: seq<Machine>, b: seq<Machine>, taskName: string)
    requires SameMachines(a, b)
    ensures InScopeNames(a, taskName) == InScopeNames(b, taskName)
  {
    if a != [] {
      SameNames(a[1..], b[1..], taskName);
    }
  }

  function QueueOf(ms: seq<Machine>, taskName: string): seq<string> {
    InScopeNames(SortedByCreation(ms), taskName)
  }

  lemma SameQueue(a: seq<Machine>, b: seq<Machine>, taskName: string)
    requires SameMachines(a, b)
    ensures QueueOf(a, taskName) == QueueOf(b, taskName)
  {
    SameOrder(a, b);
    SameNames(SortedByCreation(a), SortedByCreation(b), taskName);
  }

  predicate DistinctQueue(q: seq<string>) {
    forall i, j :: 0 <= i < |q| && 0 <= j < |q| && q[i] == q[j] ==> i == j
  }

  lemma {:induction false} NamesOccur(ms: seq<Machine>, taskName: string, i: nat) returns (k: nat)
    requires i < |InScopeNames(ms, taskName)|
    ensures k < |ms| && ms[k].name == InScopeNames(ms, taskName)[i] && IsMachineInUpdateScope(ms[k], taskName)
  {
    var d := if IsMachineInUpdateScope(ms[0], taskName) then 1 else 0;
    if i < d {
      k := 0;
    } else {
      k := NamesOccur(ms[1..], taskName, i - d);
      k := k + 1;
    }
  }

  lemma {:induction false} NamesDistinct(ms: seq<Machine>, taskName: string)
    requires DistinctNames(ms)
    ensures DistinctQueue(InScopeNames(ms, taskName))
  {
    if ms != [] {
      NamesDistinct(ms[1..], taskName);
      var tail := InScopeNames(ms[1..], taskName);
      forall i | 0 <= i < |tail| ensures tail[i] != ms[0].name {
        var k := NamesOccur(ms[1..], taskName, i);
        assert ms[k + 1].name == tail[i];
      }
    }
  }

  /** The queue of an update task: the selected machines in its scope, by creation time. */
  function Queue(s: Store, t: string): seq<string>
    requires t in s.tasks
  {
    QueueOf(Selected(s, s.tasks[t]), t)
  }

  lemma {:induction false} NextIsFirst(ms: seq<Machine>, done: set<string>, taskName: string) returns (k: nat)
    requires NextMachine(ms, done, taskName).Some?
    ensures var q := InScopeNames(ms, taskName);
      && k < |q| && q[k] == NextMachine(ms, done, taskName).value.name && q[k] !in done
      && forall i :: 0 <= i < k ==> q[i] in done
  {
    if ms[0].name !in done && IsMachineInUpdateScope(ms[0], taskName) {
      k := 0;
    } else {
      var k' := NextIsFirst(ms[1..], done, taskName);
      k := if IsMachineInUpdateScope(ms[0], taskName) then k' + 1 else k';
    }
  }

  /** The machines that hold a node task are the first ones of the queue, one node task each. */
  ghost predicate InOrder(q: seq<string>, mine: seq<NodeTask>) {
    && |mine| <= |q|
    && (forall i :: 0 <= i < |q| ==> (HasNode(mine, q[i]) <==> i < |mine|))
    && forall n :: n in mine ==> n.machineName.Some? && n.machineName.value in q[..|mine|]
  }

  lemma LaterHasNode(a: seq<NodeTask>, b: seq<NodeTask>, machineName: string)
    requires Later(a, b)
    ensures HasNode(a, machineName) <==> HasNode(b, machineName)
  {
    if HasNode(a, machineName) {
      var i :| 0 <= i < |a| && a[i].machineName == Some(machineName);
      assert Evolves(a[i], b[i]) && b[i] in b;
    }
    if HasNode(b, machineName) {
      var i :| 0 <= i < |b| && b[i].machineName == Some(machineName);
      assert Evolves(a[i], b[i]) && a[i] in a;
    }
  }

  lemma LaterInOrder(q: seq<string>, a: seq<NodeTask>, b: seq<NodeTask>)
    requires Later(a, b) && InOrder(q, a)
    ensures InOrder(q, b)
  {
    forall i | 0 <= i < |q| ensures HasNode(b, q[i]) <==> i < |b| {
      LaterHasNode(a, b, q[i]);
    }
    forall n | n in b ensures n.machineName.Some? && n.machineName.value in q[..|b|] {
      var i :| 0 <= i < |b| && b[i] == n;
      assert Evolves(a[i], b[i]) && a[i] in a;
    }
  }

  lemma GrowInOrder(q: seq<string>, mine: seq<NodeTask>, k: nat, n: NodeTask)
    requires InOrder(q, mine) && DistinctQueue(q) && k <= |mine| < |q| && n.machineName == Some(q[|mine|])
    ensures InOrder(q, Insert(mine, k, n))
  {
    var r := Insert(mine, k, n);
    assert forall x :: x in r <==> x in mine || x == n;
    assert q[..|r|] == q[..|mine|] + [q[|mine|]];
    forall i | 0 <= i < |q| ensures HasNode(r, q[i]) <==> i < |r| {
      assert HasNode(r, q[i]) <==> HasNode(mine, q[i]) || i == |mine|;
    }
  }

  predicate KeepsMachines(a: Action) {
    a.Environment? ==> !a.env.Annotate? && !a.env.JoinMachine? && !a.env.LeaveMachine?
  }

  lemma MachinesStep(w: World, a: Action)
    requires Enabled(w, a) && KeepsMachines(a)
    ensures SameMachines(w.store.machines, NextMachines(w, a))
  {
  }

  lemma SelectionStep(w: World, a: Action, t: string)
    requires Enabled(w, a) && KeepsMachines(a) && t in w.store.tasks
    ensures t in NextTasks(w, a)
    ensures SameMachines(Selected(w.store, w.store.tasks[t]), Selected(Next(w, a).store, NextTasks(w, a)[t]))
  {
    MachinesStep(w, a);
    SelectorStep(w, a, t);
    var selector := Selector(w.store.tasks[t]);
    if selector.Some? { SameSelection(w.store.machines, NextMachines(w, a), selector.value); }
  }

  lemma SelectorStep(w: World, a: Action, t: string)
    requires Enabled(w, a) && t in w.store.tasks
    ensures t in NextTasks(w, a) && Selector(NextTasks(w, a)[t]) == Selector(w.store.tasks[t])
  {
  }

  ghost predicate OrderInv(w: World, t: string) {
    && t in w.store.tasks
    && (t in w.flights ==> SameMachines(w.flights[t].scope.machines, Selected(w.store, w.store.tasks[t])))
    && InOrder(Queue(w.store, t), Mine(w.store, t))
  }

  lemma FlightMachinesStep(w: World, a: Action, t: string)
    requires Enabled(w, a) && KeepsMachines(a) && t in w.store.tasks
    requires t in w.flights ==> SameMachines(w.flights[t].scope.machines, Selected(w.store, w.store.tasks[t]))
    ensures t in NextTasks(w, a)
    ensures t in NextFlights(w, a) ==>
      SameMachines(NextFlights(w, a)[t].scope.machines, Selected(Next(w, a).store, NextTasks(w, a)[t]))
  {
    SelectionStep(w, a, t);
    if t in NextFlights(w, a) && t in w.flights {
      assert NextFlights(w, a)[t].scope == w.flights[t].scope;
    }
  }

  lemma FirstGap(q: seq<string>, done: set<string>, k: nat, n: nat)
    requires k < |q| && q[k] !in done && forall i :: 0 <= i < k ==> q[i] in done
    requires n <= |q| && forall i :: 0 <= i < |q| ==> (q[i] in done <==> i < n)
    ensures k == n
  {
    if n < |q| {
      assert q[n] !in done;
    }
  }

  // A flight whose snapshot is in step with the store, with a machine to create a node task for.
  ghost predicate HasTarget(w: World, t: string) {
    && t in w.flights && t in w.store.tasks && FlightOk(w, t)
    && Later(w.flights[t].scope.nodes, Mine(w.store, t)) && Target(w.flights[t].scope).Some?
  }

  // The target of a creation is the first of the queue that has no node task.
  lemma TargetIsNext(w: World, t: string)
    requires OrderInv(w, t) && HasTarget(w, t)
    ensures |Mine(w.store, t)| < |Queue(w.store, t)|
    ensures Target(w.flights[t].scope).value.name == Queue(w.store, t)[|Mine(w.store, t)|]
  {
    var f := w.flights[t];
    var q, mine := Queue(w.store, t), Mine(w.store, t);
    SameQueue(f.scope.machines, Selected(w.store, w.store.tasks[t]), t);
    var done := NewestOf(f.scope.nodes).Keys;
    var k := NextIsFirst(SortedByCreation(f.scope.machines), done, t);
    forall i | 0 <= i < |q| ensures q[i] in done <==> i < |mine| {
      KnownMachines(f.scope.nodes, q[i]);
      LaterHasNode(f.scope.nodes, mine, q[i]);
    }
    FirstGap(q, done, k, |mine|);
  }

  // The new node task extends the prefix, wherever it enters the list.
  lemma CreationInOrder(w: World, t: string, k: nat, n: NodeTask)
    requires OrderInv(w, t) && HasTarget(w, t) && DistinctNames(w.store.machines)
    requires k <= |Mine(w.store, t)| && n.machineName == Some(Target(w.flights[t].scope).value.name)
    ensures InOrder(Queue(w.store, t), Insert(Mine(w.store, t), k, n))
  {
    TargetIsNext(w, t);
    SelectedDistinct(w.store, w.store.tasks[t]);
    NamesDistinct(SortedByCreation(Selected(w.store, w.store.tasks[t])), t);
    GrowInOrder(Queue(w.store, t), Mine(w.store, t), k, n);
  }

  lemma MineInOrder(w: World, a: Action, t: string)
    requires Inv(w) && OrderInv(w, t) && Enabled(w, a)
    ensures t in Next(w, a).store.tasks && InOrder(Queue(w.store, t), Mine(Next(w, a).store, t))
  {
    if CreatesFor(a, t) {
      assert FlightOk(w, t);
      var k := MineGrows(w, a, t);
      CreationInOrder(w, t, k, NodeFor(w, w.flights[t], a.generated));
    } else {
      MineEvolves(w, a, t);
      LaterInOrder(Queue(w.store, t), Mine(w.store, t), Mine(Next(w, a).store, t));
    }
  }

  lemma QueueStep(w: World, a: Action, t: string)
    requires Enabled(w, a) && KeepsMachines(a) && t in w.store.tasks
    ensures t in Next(w, a).store.tasks && Queue(Next(w, a).store, t) == Queue(w.store, t)
  {
    SelectionStep(w, a, t);
    SameQueue(Selected(w.store, w.store.tasks[t]), Selected(Next(w, a).store, NextTasks(w, a)[t]), t);
  }

  // A step of any actor that moves no machine and no scope, on the way of an ordered rollout.
  ghost predicate IsOrderlyStep(w: World, a: Action, t: string) {
    Inv(w) && OrderInv(w, t) && Enabled(w, a) && KeepsMachines(a)
  }

  lemma OrderStep(w: World, a: Action, t: string)
    requires IsOrderlyStep(w, a, t)
    ensures OrderInv(Next(w, a), t) && Queue(Next(w, a).store, t) == Queue(w.store, t)
  {
    FlightMachinesStep(w, a, t);
    QueueStep(w, a, t);
    MineInOrder(w, a, t);
  }

  lemma {:induction false} OrderRun(w: World, run: seq<Action>, t: string)
    requires Inv(w) && IsRun(w, run) && OrderInv(w, t)
    requires forall a :: a in run ==> KeepsMachines(a)
    ensures Inv(End(w, run)) && OrderInv(End(w, run), t) && Queue(End(w, run).store, t) == Queue(w.store, t)
    decreases run
  {
    if run != [] {
      assert run[0] in run && forall a :: a in run[1..] ==> a in run;
      OrderStep(w, run[0], t);
      InvStep(w, run[0]);
      OrderRun(Next(w, run[0]), run[1..], t);
    }
  }

  // No node tasks is a start of an ordered rollout.
  lemma NoNodesInOrder(w: World, t: string)
    requires t in w.store.tasks && t !in w.flights && Mine(w.store, t) == []
    ensures OrderInv(w, t)
  {
  }

  /** In every run from a fresh store that moves no machine and no scope, the machines that hold a node task
      form a prefix of the machines in scope sorted by creation time; so there are never more node tasks than
      machines in scope. */
  lemma OrderedRollout(s: Store, run: seq<Action>, t: string)
    requires IsFreshStore(s) && t in s.tasks && IsRun(Initial(s), run)
    requires forall a :: a in run ==> KeepsMachines(a)
    ensures t in End(Initial(s), run).store.tasks
    ensures Queue(End(Initial(s), run).store, t) == Queue(s, t)
    ensures InOrder(Queue(s, t), Mine(End(Initial(s), run).store, t))
    ensures |Mine(End(Initial(s), run).store, t)| <= |Queue(s, t)|
  {
    FreshStoreInv(s);
    NoNodesInOrder(Initial(s), t);
    OrderRun(Initial(s), run, t);
  }
}
