/** What every step of the protocol keeps, and what follows for whole runs. */
module Invariants {
  import opened UpdateTypes
  import opened Objects
  import opened Nodes
  import opened Scopes
  import opened Status
  import opened Rollout
  import opened Protocol

  lemma MachinesStayDistinct(w: World, a: Action)
    requires Enabled(w, a) && DistinctNames(w.store.machines)
    ensures DistinctNames(NextMachines(w, a))
  {
  }

  lemma SameIdentities(a: seq<NodeTask>, b: seq<NodeTask>)
    requires Later(a, b) && DistinctNodes(a)
    ensures DistinctNodes(b)
  {
    forall i, j | 0 <= i < |b| && 0 <= j < |b| && SameNode(b[i], b[j]) ensures i == j {
      assert Evolves(a[i], b[i]) && Evolves(a[j], b[j]) && SameNode(a[i], a[j]);
    }
  }

  lemma NodesStayDistinct(w: World, a: Action)
    requires Enabled(w, a) && DistinctNodes(w.store.nodeTasks)
    ensures DistinctNodes(NextNodes(w, a))
  {
    if a.CreateNode? {
      InsertDistinctNodes(w.store.nodeTasks, a.generated.position, NodeFor(w, w.flights[a.task], a.generated));
    } else {
      NodesStep(w, a);
      SameIdentities(w.store.nodeTasks, NextNodes(w, a));
    }
  }

  lemma TasksStep(w: World, a: Action)
    requires Enabled(w, a) && TasksOk(w) && FlightsOk(w)
    ensures TasksOk(Next(w, a))
  {
    MachinesStayDistinct(w, a);
    NodesStayDistinct(w, a);
  }

  lemma FlightBegins(w: World, a: Action, t: string)
    requires Enabled(w, a) && TasksOk(w) && t !in w.flights && t in NextFlights(w, a)
    ensures FlightOk(Next(w, a), t)
  {
    assert a == Begin(t);
  }

  lemma FlightGoesOn(w: World, a: Action, t: string)
    requires Enabled(w, a) && TasksOk(w) && t in w.flights && FlightOk(w, t) && t in NextFlights(w, a)
    ensures FlightOk(Next(w, a), t)
  {
    KeyStep(w, a, t);
  }

  lemma FlightsStep(w: World, a: Action)
    requires Enabled(w, a) && TasksOk(w) && FlightsOk(w)
    ensures FlightsOk(Next(w, a))
  {
    forall t | t in NextFlights(w, a) ensures FlightOk(Next(w, a), t) {
      if t in w.flights {
        FlightGoesOn(w, a, t);
      } else {
        FlightBegins(w, a, t);
      }
    }
  }

  lemma LaterTransitive(a: seq<NodeTask>, b: seq<NodeTask>, c: seq<NodeTask>)
    requires Later(a, b) && Later(b, c)
    ensures Later(a, c)
  {
    forall i | 0 <= i < |a| ensures Evolves(a[i], c[i]) {
      assert Evolves(a[i], b[i]) && Evolves(b[i], c[i]);
    }
  }

  // A flight keeps its snapshot, and what it has created stays created.
  lemma FlightOrigin(w: World, a: Action, t: string)
    requires Enabled(w, a) && t in w.flights && t in NextFlights(w, a)
    ensures NextFlights(w, a)[t].scope == w.flights[t].scope
    ensures !NextFlights(w, a)[t].created ==> !w.flights[t].created && !CreatesFor(a, t)
  {
  }

  lemma SyncedStep(w: World, a: Action)
    requires Enabled(w, a) && Inv(w)
    ensures Synced(Next(w, a))
  {
    var w' := Next(w, a);
    forall t | t in w'.flights && !w'.flights[t].created
      ensures t in w'.store.tasks && Later(w'.flights[t].scope.nodes, Mine(w'.store, t))
    {
      if t in w.flights {
        FlightStaysSynced(w, a, t);
      } else {
        LaterSame(Mine(w.store, t));
      }
    }
  }

  lemma FlightStaysSynced(w: World, a: Action, t: string)
    requires Enabled(w, a) && Inv(w) && t in w.flights && t in NextFlights(w, a) && !NextFlights(w, a)[t].created
    ensures t in Next(w, a).store.tasks && Later(NextFlights(w, a)[t].scope.nodes, Mine(Next(w, a).store, t))
  {
    assert FlightOk(w, t);
    FlightOrigin(w, a, t);
    MineEvolves(w, a, t);
    LaterTransitive(w.flights[t].scope.nodes, Mine(w.store, t), Mine(Next(w, a).store, t));
  }

  lemma SettledLater(a: seq<NodeTask>, b: seq<NodeTask>)
    requires Later(a, b)
    ensures Serial(a) ==> Serial(b)
    ensures OnePerMachine(a) ==> OnePerMachine(b)
    ensures (forall n :: n in a ==> IsReadable(n) && !IsOpen(n)) ==> forall n :: n in b ==> !IsOpen(n)
  {
    forall i | 0 <= i < |a| ensures Evolves(a[i], b[i]) && (IsOpen(b[i]) ==> IsOpen(a[i])) {
    }
  }

  /** Nothing is created while any node task of the update task is running or failed, nor for a machine
      that already has one. */
  lemma CreationIsSafe(w: World, t: string, g: Generated)
    requires Inv(w) && Enabled(w, CreateNode(t, g))
    ensures t in w.store.tasks && (forall n :: n in Mine(w.store, t) ==> IsSettled(StateOf(n)))
    ensures forall n :: n in Mine(w.store, t) ==> n.machineName != Some(Target(w.flights[t].scope).value.name)
  {
    var f := w.flights[t];
    assert FlightOk(w, t);
    SettledLater(f.scope.nodes, Mine(w.store, t));
    var name := Target(f.scope).value.name;
    TargetHasNoNode(f.scope);
    forall n | n in Mine(w.store, t) ensures n.machineName != Some(name) {
      var i :| 0 <= i < |Mine(w.store, t)| && Mine(w.store, t)[i] == n;
      assert Evolves(f.scope.nodes[i], n) && f.scope.nodes[i] in f.scope.nodes;
    }
  }

  lemma {:induction false} NextMachineIsNew(sorted: seq<Machine>, done: set<string>, taskName: string)
    requires NextMachine(sorted, done, taskName).Some?
    ensures var m := NextMachine(sorted, done, taskName).value;
      m in sorted && m.name !in done && IsMachineInUpdateScope(m, taskName)
  {
    if !(sorted[0].name !in done && IsMachineInUpdateScope(sorted[0], taskName)) {
      NextMachineIsNew(sorted[1..], done, taskName);
    }
  }

  lemma TargetHasNoNode(scope: Scope)
    requires AllReadable(scope.nodes) && Target(scope).Some?
    ensures var m := Target(scope).value;
      && m in scope.machines && IsMachineInUpdateScope(m, scope.task.name)
      && forall n :: n in scope.nodes ==> n.machineName != Some(m.name)
  {
    var sorted, newest := SortedByCreation(scope.machines), Newest(Statuses(scope.nodes));
    NextMachineIsNew(sorted, newest.Keys, scope.task.name);
    SortedMembers(scope.machines);
    forall n | n in scope.nodes ensures n.machineName != Some(Target(scope).value.name) {
      var i :| 0 <= i < |scope.nodes| && scope.nodes[i] == n;
      assert Statuses(scope.nodes)[i] == StatusOf(n);
      NewestHas(Statuses(scope.nodes), StatusOf(n));
    }
  }

  lemma InsertSettled(ns: seq<NodeTask>, k: nat, n: NodeTask)
    requires k <= |ns|
    requires forall x :: x in ns ==> !IsOpen(x) && x.machineName != n.machineName
    requires OnePerMachine(ns)
    ensures Serial(Insert(ns, k, n)) && OnePerMachine(Insert(ns, k, n))
  {
    var r := Insert(ns, k, n);
    forall i | 0 <= i < |r| && i != k ensures !IsOpen(r[i]) && r[i].machineName != n.machineName {
      assert r[i] in ns;
    }
    forall i, j | 0 <= i < |r| && 0 <= j < |r| && r[i].machineName.Some? && r[i].machineName == r[j].machineName
      ensures i == j
    {
      if i != k && j != k {
        assert r[i] == ns[if i < k then i else i - 1] && r[j] == ns[if j < k then j else j - 1];
      }
    }
  }

  lemma {:induction false} NoneListed(ns: seq<NodeTask>, key: NodeKey)
    requires forall n :: n in ns ==> !BelongsTo(n, key)
    ensures Listed(ns, key) == []
  {
    if ns != [] {
      assert ns[0] in ns;
      NoneListed(ns[1..], key);
    }
  }

  // A task that is added has no node tasks.
  lemma AddedHasNone(w: World, a: Action, t: string)
    requires Enabled(w, a) && t !in w.store.tasks && t in NextTasks(w, a)
    ensures t in Next(w, a).store.tasks && Mine(Next(w, a).store, t) == []
  {
    NoneListed(NextNodes(w, a), KeyOf(NextTasks(w, a)[t]));
  }

  lemma RolloutsStep(w: World, a: Action)
    requires Enabled(w, a) && Inv(w)
    ensures RolloutsOk(Next(w, a))
  {
    var w' := Next(w, a);
    forall t | t in w'.store.tasks ensures Serial(Mine(w'.store, t)) && OnePerMachine(Mine(w'.store, t)) {
      if t !in w.store.tasks {
        AddedHasNone(w, a, t);
      } else if CreatesFor(a, t) {
        CreationIsSafe(w, t, a.generated);
        var k := MineGrows(w, a, t);
        InsertSettled(Mine(w.store, t), k, NodeFor(w, w.flights[t], a.generated));
      } else {
        MineEvolves(w, a, t);
        SettledLater(Mine(w.store, t), Mine(w'.store, t));
      }
    }
  }

  lemma InvStep(w: World, a: Action)
    requires Enabled(w, a) && Inv(w)
    ensures Inv(Next(w, a))
  {
    TasksStep(w, a);
    FlightsStep(w, a);
    SyncedStep(w, a);
    RolloutsStep(w, a);
  }

  lemma {:induction false} InvRun(w: World, run: seq<Action>)
    requires Inv(w) && IsRun(w, run)
    ensures Inv(End(w, run))
    decreases run
  {
    if run != [] {
      InvStep(w, run[0]);
      InvRun(Next(w, run[0]), run[1..]);
    }
  }

  // A namespace whose update tasks are fresh.
  ghost predicate IsFreshStore(s: Store) {
    && ValidStore(s)
    && forall t :: t in s.tasks ==> s.tasks[t].state.Unknown? && !s.tasks[t].finalizer && Mine(s, t) == []
  }

  lemma FreshStoreInv(s: Store)
    requires IsFreshStore(s)
    ensures Inv(Initial(s))
  {
  }

  /** Serial rollout and uniqueness. In every state of every run, whatever the other actors do in between,
      at most one node task of an update task is outside Updated and Aborted, and no machine has two. */
  lemma SerialRollout(s: Store, run: seq<Action>, t: string)
    requires IsFreshStore(s) && IsRun(Initial(s), run)
    requires t in End(Initial(s), run).store.tasks
    ensures var mine := Mine(End(Initial(s), run).store, t);
      Serial(mine) && OnePerMachine(mine)
  {
    FreshStoreInv(s);
    InvRun(Initial(s), run);
  }
}
