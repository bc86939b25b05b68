/** How a rollout starts: the run from a fresh task to its first node task. */
module Starts {
  import opened UpdateTypes
  import opened Objects
  import opened Nodes
  import opened Scopes
  import opened Rollout
  import opened Protocol
  import opened Refinement

  // A fresh task in the Update phase, its gate open, a template to create from, and a machine to start with.
  ghost predicate CanStart(s: Store, t: string) {
    && ValidStore(s) && t in s.tasks && HasScope(s, s.tasks[t])
    && s.tasks[t].state.Unknown? && !s.tasks[t].finalizer && Mine(s, t) == []
    && s.tasks[t].phase.Update? && !s.tasks[t].deleting && s.tasks[t].templateRef in s.templates
    && GateOpen(s, s.tasks[t]) && Target(ScopeFor(s, s.tasks[t])).Some?
  }

  // Nothing in flight.
  function At(s: Store, log: seq<Event>): World {
    World(s, map[], map[], log)
  }

  ghost function FirstMachine(s: Store, t: string): Machine
    requires CanStart(s, t)
  {
    Target(ScopeFor(s, s.tasks[t])).value
  }

  ghost function FirstNode(s: Store, t: string, g: Generated): NodeTask
    requires CanStart(s, t)
  {
    NewNodeTask(s.tasks[t], FirstMachine(s, t).name, s.templates[s.tasks[t].templateRef], g)
  }

  function Held(t: UpdateTask): UpdateTask {
    t.(finalizer := true)
  }

  // The store once the finalizer is set and the first node task is there, at position i and in state st.
  ghost predicate HasStarted(s: Store, t: string, g: Generated, i: nat, st: State, s': Store)
    requires CanStart(s, t)
  {
    && i < |s'.nodeTasks| && s'.nodeTasks[i] == FirstNode(s, t, g).(state := Some(st))
    && s' == HeldStore(s, t).(nodeTasks := s'.nodeTasks)
    && Mine(s', t) == [s'.nodeTasks[i]]
  }

  function HeldStore(s: Store, t: string): Store
    requires t in s.tasks
  {
    s.(tasks := s.tasks[t := Held(s.tasks[t])])
  }

  // With the first node task in the store and in the log.
  ghost function FirstWorld(s: Store, log: seq<Event>, t: string, g: Generated): World
    requires CanStart(s, t)
  {
    At(HeldStore(s, t).(nodeTasks := Insert(s.nodeTasks, g.position, FirstNode(s, t, g))),
       log + [Created(t, FirstMachine(s, t).name)])
  }

  lemma HeldGate(s: Store, t: string)
    requires t in s.tasks && GateOpen(s, s.tasks[t])
    ensures GateOpen(HeldStore(s, t), Held(s.tasks[t]))
  {
  }

  lemma HeldScope(s: Store, t: string)
    requires CanStart(s, t)
    ensures ScopeFor(HeldStore(s, t), Held(s.tasks[t])) == Scope(Held(s.tasks[t]), Selected(s, s.tasks[t]), [])
    ensures ScopeFor(s, s.tasks[t]) == Scope(s.tasks[t], Selected(s, s.tasks[t]), [])
    ensures HasScope(HeldStore(s, t), Held(s.tasks[t]))
  {
    assert Mine(s, t) == [];
  }

  // The first reconcile that holds the finalizer, before and behind the gate.
  function Begun(s: Store, log: seq<Event>, t: string, cleared: bool): World
    requires t in s.tasks
  {
    At(HeldStore(s, t), log).(flights := map[t := Flight(ScopeFor(HeldStore(s, t), Held(s.tasks[t])), cleared, false)])
  }

  function WithFlight(w: World, t: string): World
    requires t in w.store.tasks
  {
    w.(flights := w.flights[t := Flight(ScopeFor(w.store, w.store.tasks[t]), false, false)])
  }

  lemma BeginIs(w: World, t: string)
    requires Enabled(w, Begin(t))
    ensures Next(w, Begin(t)) == WithFlight(w, t)
  {
    assert w.log + [] == w.log;
  }

  lemma DropIs(w: World, t: string)
    requires t in w.flights
    ensures Next(w, Drop(t)) == w.(flights := w.flights - {t})
  {
    assert w.log + [] == w.log;
  }

  lemma GateIs(w: World, t: string)
    requires Enabled(w, PassGate(t))
    ensures Next(w, PassGate(t)) == w.(flights := w.flights[t := w.flights[t].(cleared := true)])
  {
    assert w.log + [] == w.log;
  }

  lemma FinalizerIs(s: Store, log: seq<Event>, t: string)
    requires CanStart(s, t)
    ensures Enabled(At(s, log), AddFinalizer(t))
    ensures Next(At(s, log), AddFinalizer(t)) == At(HeldStore(s, t), log)
  {
  }

  lemma SnapshotIs(s: Store, log: seq<Event>, t: string)
    requires CanStart(s, t)
    ensures Enabled(At(HeldStore(s, t), log), Begin(t))
    ensures Next(At(HeldStore(s, t), log), Begin(t)) == Begun(s, log, t, false)
  {
    HeldScope(s, t);
    BeginIs(At(HeldStore(s, t), log), t);
  }

  lemma PassIs(s: Store, log: seq<Event>, t: string)
    requires CanStart(s, t)
    ensures Enabled(Begun(s, log, t, false), PassGate(t))
    ensures Next(Begun(s, log, t, false), PassGate(t)) == Begun(s, log, t, true)
  {
    HeldScope(s, t);
    HeldGate(s, t);
    GateIs(Begun(s, log, t, false), t);
  }

  // Finalizer, snapshot, gate: the task is about to create its first node task.
  lemma ToTheGate(s: Store, log: seq<Event>, t: string) returns (run: seq<Action>)
    requires CanStart(s, t)
    ensures IsRun(At(s, log), run) && IsUndisturbedRun(run) && End(At(s, log), run) == Begun(s, log, t, true)
  {
    FinalizerIs(s, log, t);
    OneStep(At(s, log), AddFinalizer(t));
    run := [AddFinalizer(t)];
    SnapshotIs(s, log, t);
    Extend(At(s, log), run, Begin(t));
    run := run + [Begin(t)];
    PassIs(s, log, t);
    Extend(At(s, log), run, PassGate(t));
    run := run + [PassGate(t)];
  }

  lemma CreateIs(w: World, t: string, g: Generated)
    requires Enabled(w, CreateNode(t, g))
    ensures var n, name := NodeFor(w, w.flights[t], g), Target(w.flights[t].scope).value.name;
      Next(w, CreateNode(t, g)) ==
      World(w.store.(nodeTasks := Insert(w.store.nodeTasks, g.position, n)),
            w.flights[t := w.flights[t].(created := true)], w.requests, w.log + [Created(t, name)])
  {
  }

  // The task in flight has the same target as the fresh task.
  lemma SameTarget(s: Store, t: string)
    requires CanStart(s, t)
    ensures Target(ScopeFor(HeldStore(s, t), Held(s.tasks[t]))) == Some(FirstMachine(s, t))
  {
    HeldScope(s, t);
  }

  lemma SameFirstNode(s: Store, log: seq<Event>, t: string, g: Generated)
    requires CanStart(s, t)
    ensures var w := Begun(s, log, t, true);
      && Target(w.flights[t].scope) == Some(FirstMachine(s, t))
      && w.flights[t].scope.task.templateRef in w.store.templates
      && NodeFor(w, w.flights[t], g) == FirstNode(s, t, g)
  {
    SameTarget(s, t);
  }

  lemma CreatedFirst(s: Store, log: seq<Event>, t: string, g: Generated)
    requires CanStart(s, t) && !NodeExists(s.nodeTasks, FirstNode(s, t, g))
    ensures Enabled(Begun(s, log, t, true), CreateNode(t, g))
    ensures Next(Begun(s, log, t, true), CreateNode(t, g)) == FirstWorld(s, log, t, g).(flights := FirstFlight(s, t))
  {
    SameFirstNode(s, log, t, g);
    CreateIs(Begun(s, log, t, true), t, g);
  }

  // The flight that has created it.
  function FirstFlight(s: Store, t: string): map<string, Flight>
    requires t in s.tasks
  {
    map[t := Flight(ScopeFor(HeldStore(s, t), Held(s.tasks[t])), true, true)]
  }

  lemma InsertedAt<T>(s: seq<T>, at: nat, x: T) returns (i: nat)
    ensures i < |Insert(s, at, x)| && Insert(s, at, x)[i] == x
    ensures forall y :: Insert(s, at, x)[i := y] == Insert(s, at, y)
  {
    i := if at <= |s| then at else |s|;
  }

  lemma DropFirst(s: Store, log: seq<Event>, t: string, g: Generated)
    requires CanStart(s, t)
    ensures var w := FirstWorld(s, log, t, g).(flights := FirstFlight(s, t));
      Enabled(w, Drop(t)) && Next(w, Drop(t)) == FirstWorld(s, log, t, g)
  {
    var w := FirstWorld(s, log, t, g).(flights := FirstFlight(s, t));
    DropIs(w, t);
    assert FirstFlight(s, t) - {t} == map[];
  }

  lemma ToTheFirstNode(s: Store, log: seq<Event>, t: string, g: Generated) returns (run: seq<Action>)
    requires CanStart(s, t) && !NodeExists(s.nodeTasks, FirstNode(s, t, g))
    ensures IsRun(At(s, log), run) && IsUndisturbedRun(run)
    ensures End(At(s, log), run) == FirstWorld(s, log, t, g)
  {
    run := ToTheGate(s, log, t);
    CreatedFirst(s, log, t, g);
    Extend(At(s, log), run, CreateNode(t, g));
    run := run + [CreateNode(t, g)];
    DropFirst(s, log, t, g);
    Extend(At(s, log), run, Drop(t));
    run := run + [Drop(t)];
  }

  /** From a fresh store a run reaches the first node task of the rollout, in any state a provider reports,
      with no machine patched and nothing in flight. */
  lemma FirstNodeReached(s: Store, log: seq<Event>, t: string, g: Generated, st: State)
    returns (run: seq<Action>, i: nat)
    requires CanStart(s, t) && !NodeExists(s.nodeTasks, FirstNode(s, t, g))
    ensures IsRun(At(s, log), run)
    ensures var w := End(At(s, log), run);
      HasStarted(s, t, g, i, st, w.store) && w.flights == map[] && w.requests == map[]
  {
    run := ToTheFirstNode(s, log, t, g);
    i := InsertedAt(s.nodeTasks, g.position, FirstNode(s, t, g));
    MoveIs(End(At(s, log), run), i, st);
    Extend(At(s, log), run, Environment(MoveNode(i, st)));
    run := run + [Environment(MoveNode(i, st))];
    MovedFirst(s, t, g, st);
  }

  lemma StartedFacts(s: Store, t: string, g: Generated, i: nat, st: State, s': Store)
    requires CanStart(s, t) && HasStarted(s, t, g, i, st, s')
    ensures var n := s'.nodeTasks[i];
      IsReadable(n) && StateOf(n) == st && n.machineName == Some(FirstMachine(s, t).name) && Mine(s', t) == [n]
    ensures t in s'.tasks && s'.tasks[t] == Held(s.tasks[t]) && HasScope(s', s'.tasks[t])
    ensures Selected(s', s'.tasks[t]) == Selected(s, s.tasks[t])
  {
  }

  lemma MovedFirst(s: Store, t: string, g: Generated, st: State)
    requires CanStart(s, t)
    ensures var n := FirstNode(s, t, g).(state := Some(st));
      Listed(Insert(s.nodeTasks, g.position, n), KeyOf(s.tasks[t])) == [n]
  {
    var n := FirstNode(s, t, g).(state := Some(st));
    assert Mine(s, t) == [];
    var k := ListedInsert(s.nodeTasks, g.position, n, KeyOf(s.tasks[t]));
  }
}
