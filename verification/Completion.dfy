/** What a stored Updated means: every machine the rollout still has holds an Updated node task. */
module Completion {
  import opened UpdateTypes
  import opened Objects
  import opened Nodes
  import opened Scopes
  import opened Status
  import opened Rollout
  import opened RolloutFacts
  import opened Protocol
  import opened Invariants
  import opened Ordered
  import opened Membership
  import opened Guarantees

  predicate HasUpdated(ns: seq<NodeTask>, machineName: string) {
    exists n :: n in ns && n.machineName == Some(machineName) && StateOf(n).Updated?
  }

  ghost predicate WasUpdated(s: Store, t: string, machineName: string) {
    t in s.tasks && HasUpdated(Mine(s, t), machineName)
  }

  lemma LaterHasUpdated(a: seq<NodeTask>, b: seq<NodeTask>, machineName: string)
    requires Later(a, b) && HasUpdated(a, machineName)
    ensures HasUpdated(b, machineName)
  {
    var i :| 0 <= i < |a| && a[i].machineName == Some(machineName) && StateOf(a[i]).Updated?;
    assert Evolves(a[i], b[i]) && b[i] in b;
  }

  lemma InsertHasUpdated(ns: seq<NodeTask>, k: nat, n: NodeTask, machineName: string)
    requires k <= |ns| && HasUpdated(ns, machineName)
    ensures HasUpdated(Insert(ns, k, n), machineName)
  {
    assert forall x :: x in ns ==> x in Insert(ns, k, n);
  }

  lemma UpdatedStays(w: World, a: Action, t: string, machineName: string)
    requires Inv(w) && Enabled(w, a) && WasUpdated(w.store, t, machineName)
    ensures WasUpdated(Next(w, a).store, t, machineName)
  {
    if CreatesFor(a, t) {
      var k := MineGrows(w, a, t);
      InsertHasUpdated(Mine(w.store, t), k, NodeFor(w, w.flights[t], a.generated), machineName);
    } else {
      MineEvolves(w, a, t);
      LaterHasUpdated(Mine(w.store, t), Mine(Next(w, a).store, t), machineName);
    }
  }

  lemma NewestHasUpdated(ns: seq<NodeTask>, m: Machine)
    requires AllReadable(ns) && ConditionFor(m, NewestOf(ns)).IsUpToDate? && !m.upToDate.IsUpToDate?
    ensures HasUpdated(ns, m.name)
  {
    var k := NewestAt(Statuses(ns), m.name);
    assert Statuses(ns)[k] == StatusOf(ns[k]) && ns[k] in ns;
  }

  // Every machine that is in the rollout now has an Updated node task.
  ghost predicate AllUpdated(s: Store, t: string)
    requires t in s.tasks
  {
    forall name :: InRollout(s, t, name) ==> WasUpdated(s, t, name)
  }

  // Updated is stored only when it is true, snapshots hold the machines of their rollout, and a flight has
  // created only if its snapshot had a target.
  ghost predicate TaskCompletion(w: World, t: string)
    requires t in w.store.tasks
  {
    && SeesRollout(w, t)
    && (w.store.tasks[t].state.Updated? ==> AllUpdated(w.store, t))
    && (t in w.flights && w.flights[t].created ==> Target(w.flights[t].scope).Some?)
  }

  ghost predicate CompletionInv(w: World) {
    forall t :: t in w.store.tasks ==> TaskCompletion(w, t)
  }

  // A snapshot that reports Updated has no target, and an Updated node task for every machine in scope.
  lemma UpdatedScope(scope: Scope, m: Machine)
    requires AllReadable(scope.nodes) && StatusState(scope) == Updated
    requires m in scope.machines && IsMachineInUpdateScope(m, scope.task.name)
    ensures HasUpdated(scope.nodes, m.name)
  {
    UpdatedIsExact(scope);
    var k := NewestAt(Statuses(scope.nodes), m.name);
    assert Statuses(scope.nodes)[k] == StatusOf(scope.nodes[k]) && scope.nodes[k] in scope.nodes;
  }

  lemma UpdatedHasNoTarget(scope: Scope)
    requires AllReadable(scope.nodes) && StatusState(scope) == Updated
    ensures Target(scope).None?
  {
    UpdatedHasNoNext(scope);
  }

  // The reconcile that is about to save Updated has seen all of the rollout updated.
  lemma FinishedMeansDone(w: World, t: string, name: string)
    requires FlightsOk(w) && Synced(w) && t in w.store.tasks && TaskCompletion(w, t) && t in w.flights
    requires AllReadable(w.flights[t].scope.nodes) && StatusState(w.flights[t].scope) == Updated
    requires InRollout(w.store, t, name)
    ensures WasUpdated(w.store, t, name)
  {
    var scope := w.flights[t].scope;
    assert FlightOk(w, t);
    UpdatedHasNoTarget(scope);
    var m :| m in scope.machines && m.name == name && IsMachineInUpdateScope(m, t);
    UpdatedScope(scope, m);
    LaterHasUpdated(scope.nodes, Mine(w.store, t), name);
  }

  lemma TargetStays(w: World, a: Action, t: string)
    requires Enabled(w, a) && (t in w.flights && w.flights[t].created ==> Target(w.flights[t].scope).Some?)
    ensures t in NextFlights(w, a) && NextFlights(w, a)[t].created ==> Target(NextFlights(w, a)[t].scope).Some?
  {
  }

  // Where a stored Updated comes from.
  lemma UpdatedOrigin(w: World, a: Action, t: string)
    requires FlightsOk(w) && Enabled(w, a) && t in w.store.tasks
    requires t in NextTasks(w, a) && NextTasks(w, a)[t].state.Updated?
    ensures w.store.tasks[t].state.Updated? ||
            (t in w.flights && AllReadable(w.flights[t].scope.nodes) && StatusState(w.flights[t].scope) == Updated)
  {
  }

  lemma UpdatedStep(w: World, a: Action, t: string, name: string)
    requires Inv(w) && t in w.store.tasks && TaskCompletion(w, t) && Enabled(w, a)
    requires t in NextTasks(w, a) && NextTasks(w, a)[t].state.Updated? && InRollout(Next(w, a).store, t, name)
    ensures WasUpdated(Next(w, a).store, t, name)
  {
    RolloutShrinks(w, a, t, name);
    UpdatedOrigin(w, a, t);
    if !w.store.tasks[t].state.Updated? { FinishedMeansDone(w, t, name); }
    UpdatedStays(w, a, t, name);
  }

  lemma TaskAdded(w: World, a: Action, t: string)
    requires FlightsOk(w) && Enabled(w, a) && t !in w.store.tasks && t in NextTasks(w, a)
    ensures NextTasks(w, a)[t].state.Unknown? && t !in NextFlights(w, a)
  {
    assert t in w.flights ==> FlightOk(w, t);
  }

  lemma TaskCompletionStep(w: World, a: Action, t: string)
    requires Inv(w) && t in w.store.tasks && TaskCompletion(w, t) && Enabled(w, a)
    ensures t in Next(w, a).store.tasks && TaskCompletion(Next(w, a), t)
  {
    SeesRolloutStep(w, a, t);
    TargetStays(w, a, t);
    if NextTasks(w, a)[t].state.Updated? {
      forall name | InRollout(Next(w, a).store, t, name) ensures WasUpdated(Next(w, a).store, t, name) {
        UpdatedStep(w, a, t, name);
      }
    }
  }

  lemma CompletionStep(w: World, a: Action)
    requires Inv(w) && CompletionInv(w) && Enabled(w, a)
    ensures CompletionInv(Next(w, a))
  {
    forall t | t in Next(w, a).store.tasks ensures TaskCompletion(Next(w, a), t) {
      if t in w.store.tasks {
        TaskCompletionStep(w, a, t);
      } else {
        TaskAdded(w, a, t);
      }
    }
  }

  lemma {:induction false} CompletionRun(w: World, run: seq<Action>)
    requires Inv(w) && CompletionInv(w) && IsRun(w, run)
    ensures Inv(End(w, run)) && CompletionInv(End(w, run))
    decreases run
  {
    if run != [] {
      CompletionStep(w, run[0]);
      InvStep(w, run[0]);
      CompletionRun(Next(w, run[0]), run[1..]);
    }
  }

  /** In every state of every run from a fresh store, whatever machines leave, join or are handed over: a task is
      stored as Updated only if every machine that is selected and in its scope has an Updated node task of it. */
  lemma UpdatedMeansDone(s: Store, run: seq<Action>, t: string)
    requires IsFreshStore(s) && IsRun(Initial(s), run) && t in End(Initial(s), run).store.tasks
    ensures var s' := End(Initial(s), run).store;
      s'.tasks[t].state.Updated? ==>
        forall m :: m in Selected(s', s'.tasks[t]) && IsMachineInUpdateScope(m, t) ==> HasUpdated(Mine(s', t), m.name)
  {
    FreshStoreInv(s);
    CompletionRun(Initial(s), run);
    var s' := End(Initial(s), run).store;
    if s'.tasks[t].state.Updated? {
      forall m | m in Selected(s', s'.tasks[t]) && IsMachineInUpdateScope(m, t)
        ensures HasUpdated(Mine(s', t), m.name)
      {
        assert InRollout(s', t, m.name);
      }
    }
  }

  lemma QueueMachine(s: Store, t: string, name: string)
    requires t in s.tasks && name in Queue(s, t)
    ensures InRollout(s, t, name)
  {
    var sorted := SortedByCreation(Selected(s, s.tasks[t]));
    var i :| 0 <= i < |Queue(s, t)| && Queue(s, t)[i] == name;
    var k := NamesOccur(sorted, t, i);
    SortedMembers(Selected(s, s.tasks[t]));
    assert sorted[k] in Selected(s, s.tasks[t]);
  }

  /** While no machine and no scope moves these are all the machines the rollout started with. */
  lemma UpdatedMeansAllDone(s: Store, run: seq<Action>, t: string)
    requires IsFreshStore(s) && t in s.tasks && IsRun(Initial(s), run)
    requires forall a :: a in run ==> KeepsMachines(a)
    ensures var s' := End(Initial(s), run).store;
      t in s'.tasks && (s'.tasks[t].state.Updated? ==>
        forall name :: name in Queue(s, t) ==> HasUpdated(Mine(s', t), name))
  {
    OrderedRollout(s, run, t);
    UpdatedMeansDone(s, run, t);
    var s' := End(Initial(s), run).store;
    forall name | name in Queue(s, t) && s'.tasks[t].state.Updated? ensures HasUpdated(Mine(s', t), name) {
      QueueMachine(s', t, name);
    }
  }

  /** So once a node task has failed, the task is not Updated while any machine without node task stays in its
      rollout; nothing but the departure of all these machines ends it. */
  lemma FailedIsNotUpdated(s: Store, run: seq<Action>, more: seq<Action>, t: string, name: string)
    requires IsFreshStore(s) && IsRun(Initial(s), run) && IsRun(End(Initial(s), run), more)
    requires var s1 := End(Initial(s), run).store;
      t in s1.tasks && HasFailed(Mine(s1, t)) && !HasNode(Mine(s1, t), name)
    ensures var s2 := End(End(Initial(s), run), more).store;
      t in s2.tasks && (InRollout(s2, t, name) ==> !s2.tasks[t].state.Updated?)
  {
    var w1 := End(Initial(s), run);
    FreshStoreInv(s);
    CompletionRun(Initial(s), run);
    CompletionRun(w1, more);
    FailedBlocks(w1, more, t);
    LaterHasNode(Mine(w1.store, t), Mine(End(w1, more).store, t), name);
  }
}
