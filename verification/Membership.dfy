/** The machines of a rollout: whatever leaves, joins or is handed over, a stored task only ever loses machines.
    So every reconcile in flight has seen all machines the rollout still has, and the node tasks of a task never
    outnumber the machines it started with. */
module Membership {
  import opened Objects
  import opened Nodes
  import opened Scopes
  import opened Protocol
  import opened Invariants
  import opened Ordered

  // A selected machine of this name is in the scope of the task.
  predicate HasMachine(ms: seq<Machine>, t: string, name: string) {
    exists m :: m in ms && m.name == name && IsMachineInUpdateScope(m, t)
  }

  predicate InRollout(s: Store, t: string, name: string)
    requires t in s.tasks
  {
    HasMachine(Selected(s, s.tasks[t]), t, name)
  }

  // Machines are only handed to tasks that are not stored yet, and join without a scope.
  lemma MachineOfScope(w: World, a: Action, t: string, m: Machine) returns (x: Machine)
    requires Enabled(w, a) && t in w.store.tasks && m in NextMachines(w, a) && IsMachineInUpdateScope(m, t)
    ensures x in w.store.machines && x.name == m.name && x.labels == m.labels && IsMachineInUpdateScope(x, t)
  {
    var ms, ms' := w.store.machines, NextMachines(w, a);
    var i :| 0 <= i < |ms'| && ms'[i] == m;
    x := if a.Environment? && a.env.LeaveMachine? && i >= a.env.index then ms[i + 1] else ms[i];
  }

  lemma RolloutShrinks(w: World, a: Action, t: string, name: string)
    requires Enabled(w, a) && t in w.store.tasks
    ensures t in Next(w, a).store.tasks
    ensures InRollout(Next(w, a).store, t, name) ==> InRollout(w.store, t, name)
  {
    SelectorStep(w, a, t);
    if InRollout(Next(w, a).store, t, name) {
      var m :| m in Selected(Next(w, a).store, NextTasks(w, a)[t]) && m.name == name && IsMachineInUpdateScope(m, t);
      var x := MachineOfScope(w, a, t, m);
      assert x in Selected(w.store, w.store.tasks[t]);
    }
  }

  /******* Reconciles in flight *******/

  // The snapshot of a reconcile in flight holds every machine the rollout has now.
  ghost predicate SeesRollout(w: World, t: string)
    requires t in w.store.tasks
  {
    t in w.flights ==>
      forall name :: InRollout(w.store, t, name) ==> HasMachine(w.flights[t].scope.machines, t, name)
  }

  lemma SeesRolloutStep(w: World, a: Action, t: string)
    requires Enabled(w, a) && t in w.store.tasks && SeesRollout(w, t)
    ensures t in Next(w, a).store.tasks && SeesRollout(Next(w, a), t)
  {
    KeyStep(w, a, t);
    if t in NextFlights(w, a) {
      forall name | InRollout(Next(w, a).store, t, name)
        ensures HasMachine(NextFlights(w, a)[t].scope.machines, t, name)
      {
        RolloutShrinks(w, a, t, name);
        FlightSeesStep(w, a, t, name);
      }
    }
  }

  lemma FlightSeesStep(w: World, a: Action, t: string, name: string)
    requires Enabled(w, a) && t in w.store.tasks && SeesRollout(w, t) && InRollout(w.store, t, name)
    requires t in NextFlights(w, a)
    ensures HasMachine(NextFlights(w, a)[t].scope.machines, t, name)
  {
    if t in w.flights {
      FlightOrigin(w, a, t);
    }
  }

  /******* Node tasks *******/

  // No machine outside these names is in the rollout, in the eyes of a reconcile of it, or has a node task.
  ghost predicate StaysWithin(w: World, t: string, names: set<string>) {
    && t in w.store.tasks
    && (forall name :: InRollout(w.store, t, name) ==> name in names)
    && (t in w.flights ==> forall name :: HasMachine(w.flights[t].scope.machines, t, name) ==> name in names)
    && NamesWithin(Mine(w.store, t), names)
  }

  predicate NamesWithin(ns: seq<NodeTask>, names: set<string>) {
    forall n :: n in ns ==> n.machineName.Some? && n.machineName.value in names
  }

  lemma LaterWithin(a: seq<NodeTask>, b: seq<NodeTask>, names: set<string>)
    requires Later(a, b) && NamesWithin(a, names)
    ensures NamesWithin(b, names)
  {
    forall n | n in b ensures n.machineName.Some? && n.machineName.value in names {
      var i :| 0 <= i < |b| && b[i] == n;
      assert Evolves(a[i], b[i]) && a[i] in a;
    }
  }

  lemma InsertWithin(ns: seq<NodeTask>, k: nat, n: NodeTask, names: set<string>)
    requires NamesWithin(ns, names) && n.machineName.Some? && n.machineName.value in names
    ensures NamesWithin(Insert(ns, k, n), names)
  {
    assert forall x :: x in Insert(ns, k, n) ==> x in ns || x == n;
  }

  lemma TargetWithin(w: World, t: string, names: set<string>)
    requires FlightsOk(w) && StaysWithin(w, t, names) && t in w.flights && Target(w.flights[t].scope).Some?
    ensures Target(w.flights[t].scope).value.name in names
  {
    assert FlightOk(w, t);
    TargetHasNoNode(w.flights[t].scope);
    assert HasMachine(w.flights[t].scope.machines, t, Target(w.flights[t].scope).value.name);
  }

  lemma NodesWithinStep(w: World, a: Action, t: string, names: set<string>)
    requires Inv(w) && Enabled(w, a) && StaysWithin(w, t, names)
    ensures t in Next(w, a).store.tasks && NamesWithin(Mine(Next(w, a).store, t), names)
  {
    if CreatesFor(a, t) {
      TargetWithin(w, t, names);
      var k := MineGrows(w, a, t);
      InsertWithin(Mine(w.store, t), k, NodeFor(w, w.flights[t], a.generated), names);
    } else {
      MineEvolves(w, a, t);
      LaterWithin(Mine(w.store, t), Mine(Next(w, a).store, t), names);
    }
  }

  lemma FlightWithinStep(w: World, a: Action, t: string, names: set<string>, name: string)
    requires Enabled(w, a) && StaysWithin(w, t, names) && t in NextFlights(w, a)
    requires HasMachine(NextFlights(w, a)[t].scope.machines, t, name)
    ensures name in names
  {
    if t in w.flights {
      FlightOrigin(w, a, t);
    } else {
      assert InRollout(w.store, t, name);
    }
  }

  lemma WithinStep(w: World, a: Action, t: string, names: set<string>)
    requires Inv(w) && Enabled(w, a) && StaysWithin(w, t, names)
    ensures StaysWithin(Next(w, a), t, names)
  {
    NodesWithinStep(w, a, t, names);
    forall name | InRollout(Next(w, a).store, t, name) ensures name in names {
      RolloutShrinks(w, a, t, name);
    }
    if t in NextFlights(w, a) {
      forall name | HasMachine(NextFlights(w, a)[t].scope.machines, t, name) ensures name in names {
        FlightWithinStep(w, a, t, names, name);
      }
    }
  }

  lemma {:induction false} WithinRun(w: World, run: seq<Action>, t: string, names: set<string>)
    requires Inv(w) && IsRun(w, run) && StaysWithin(w, t, names)
    ensures Inv(End(w, run)) && StaysWithin(End(w, run), t, names)
    decreases run
  {
    if run != [] {
      WithinStep(w, run[0], t, names);
      InvStep(w, run[0]);
      WithinRun(Next(w, run[0]), run[1..], t, names);
    }
  }

  // One node task per machine: no more node tasks than names.
  lemma {:induction false} NoMoreThanNames(ns: seq<NodeTask>, names: set<string>)
    requires NamesWithin(ns, names) && OnePerMachine(ns)
    ensures |ns| <= |names|
  {
    if ns != [] {
      var name := ns[0].machineName.value;
      assert ns[0] in ns;
      forall n | n in ns[1..] ensures n.machineName.Some? && n.machineName.value in names - {name} {
        var i :| 0 <= i < |ns[1..]| && ns[1..][i] == n;
        assert ns[i + 1] in ns;
      }
      NoMoreThanNames(ns[1..], names - {name});
    }
  }

  lemma {:induction false} NoMoreThanEntries(q: seq<string>)
    ensures |set x | x in q| <= |q|
  {
    if q == [] {
      assert (set x | x in q) == {};
    } else {
      NoMoreThanEntries(q[1..]);
      assert (set x | x in q) == {q[0]} + (set x | x in q[1..]);
    }
  }

  lemma {:induction false} InQueue(ms: seq<Machine>, t: string, m: Machine)
    requires m in ms && IsMachineInUpdateScope(m, t)
    ensures m.name in InScopeNames(ms, t)
  {
    if ms[0] != m {
      assert m in ms[1..];
      InQueue(ms[1..], t, m);
    }
  }

  lemma RolloutInQueue(s: Store, t: string, name: string)
    requires t in s.tasks && InRollout(s, t, name)
    ensures name in Queue(s, t)
  {
    var m :| m in Selected(s, s.tasks[t]) && m.name == name && IsMachineInUpdateScope(m, t);
    SortedMembers(Selected(s, s.tasks[t]));
    InQueue(SortedByCreation(Selected(s, s.tasks[t])), t, m);
  }

  /** In every run from a fresh store, whatever leaves, joins or is handed over: only machines that were in the
      scope of the task at the start ever get a node task of it, and there are never more node tasks than those. */
  lemma NodesBounded(s: Store, run: seq<Action>, t: string)
    requires IsFreshStore(s) && t in s.tasks && IsRun(Initial(s), run)
    ensures var s' := End(Initial(s), run).store;
      && t in s'.tasks
      && (forall n :: n in Mine(s', t) ==> n.machineName.Some? && n.machineName.value in Queue(s, t))
      && |Mine(s', t)| <= |Queue(s, t)|
  {
    FreshStoreInv(s);
    var names := set x | x in Queue(s, t);
    forall name | InRollout(s, t, name) ensures name in names {
      RolloutInQueue(s, t, name);
    }
    assert Mine(s, t) == [];
    WithinRun(Initial(s), run, t, names);
    NoMoreThanNames(Mine(End(Initial(s), run).store, t), names);
    NoMoreThanEntries(Queue(s, t));
  }
}
