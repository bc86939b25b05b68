/** The snapshot a reconcile works on (pkg/scopes/updatetask_scope.go). */
module Scopes {
  import opened Objects
  import opened Nodes

  datatype Scope = Scope(task: UpdateTask, machines: seq<Machine>, nodes: seq<NodeTask>)

  function WithLabels(ms: seq<Machine>, selector: Labels): (r: seq<Machine>)
    ensures forall m :: m in r <==> m in ms && Matches(m.labels, selector)
  {
    if ms == [] then []
    else (if Matches(ms[0].labels, selector) then [ms[0]] else []) + WithLabels(ms[1..], selector)
  }

  // Control-plane machines first, then the machines of a deployment; a task must refer to one of them.
  function Selector(t: UpdateTask): Option<Labels> {
    if t.controlPlane.Some? then Some(map[ClusterName := t.cluster, ControlPlaneLabel := ""])
    else if t.deployment.Some? then Some(map[ClusterName := t.cluster, DeploymentName := t.deployment.value])
    else None
  }

  function Selected(s: Store, t: UpdateTask): seq<Machine> {
    if Selector(t).None? then [] else WithLabels(s.machines, Selector(t).value)
  }

  // The cluster of the task exists and the task says which machines it is about.
  predicate HasScope(s: Store, t: UpdateTask) {
    t.cluster in s.clusters && Selector(t).Some?
  }

  function ScopeFor(s: Store, t: UpdateTask): Scope {
    Scope(t, Selected(s, t), Listed(s.nodeTasks, KeyOf(t)))
  }

  function NewScope(s: Store, t: UpdateTask, calls: Calls): Option<Scope> {
    if calls.getCluster || calls.listMachines || calls.listNodeTasks || calls.scopeHelper || !HasScope(s, t) then None
    else Some(ScopeFor(s, t))
  }

  // Byte order of names.
  predicate LexLess(a: string, b: string) {
    b != [] && (a == [] || a[0] < b[0] || (a[0] == b[0] && LexLess(a[1..], b[1..])))
  }

  lemma {:induction false} LexTotal(a: string, b: string)
    ensures a == b || LexLess(a, b) || LexLess(b, a)
    ensures !(LexLess(a, b) && LexLess(b, a))
    ensures LexLess(a, b) ==> a != b
  {
    if a != [] && b != [] && a[0] == b[0] {
      LexTotal(a[1..], b[1..]);
      assert a == [a[0]] + a[1..] && b == [b[0]] + b[1..];
    }
  }

  lemma {:induction false} LexTransitive(a: string, b: string, c: string)
    requires LexLess(a, b) && LexLess(b, c)
    ensures LexLess(a, c)
  {
    if a != [] && a[0] == b[0] && b[0] == c[0] {
      LexTransitive(a[1..], b[1..], c[1..]);
    }
  }

  predicate Before(a: Machine, b: Machine) {
    a.created < b.created || (a.created == b.created && LexLess(a.name, b.name))
  }

  function InsertByCreation(m: Machine, ms: seq<Machine>): (r: seq<Machine>)
    ensures multiset(r) == multiset(ms) + multiset{m}
  {
    if ms == [] then [m]
    else if Before(ms[0], m) then
      assert ms == [ms[0]] + ms[1..];
      [ms[0]] + InsertByCreation(m, ms[1..])
    else [m] + ms
  }

  /** Machines by creation time, ties by name. */
  function SortedByCreation(ms: seq<Machine>): (r: seq<Machine>)
    ensures multiset(r) == multiset(ms)
    ensures |r| == |ms|
  {
    if ms == [] then []
    else
      assert ms == [ms[0]] + ms[1..];
      var r := InsertByCreation(ms[0], SortedByCreation(ms[1..]));
      assert |r| == |multiset(r)|;
      r
  }

  predicate InCreationOrder(ms: seq<Machine>) {
    forall i, j :: 0 <= i < j < |ms| ==> !Before(ms[j], ms[i])
  }

  lemma {:induction false} InsertKeepsOrder(m: Machine, ms: seq<Machine>)
    requires InCreationOrder(ms)
    ensures InCreationOrder(InsertByCreation(m, ms))
  {
    var r := InsertByCreation(m, ms);
    if ms == [] {
    } else if Before(ms[0], m) {
      InsertKeepsOrder(m, ms[1..]);
      var tail := InsertByCreation(m, ms[1..]);
      forall j | 0 <= j < |tail| ensures !Before(tail[j], ms[0]) {
        assert tail[j] in multiset(tail);
        assert tail[j] == m || tail[j] in ms[1..];
        if tail[j] == m { LexTotal(m.name, ms[0].name); }
      }
    } else {
      forall j | 0 <= j < |ms| ensures !Before(ms[j], m) {
        if Before(ms[j], m) {
          assert !Before(ms[j], ms[0]);
          BeforeTotal(ms[0], m);
          BeforeTotal(ms[0], ms[j]);
          if Before(ms[0], ms[j]) { BeforeTransitive(ms[0], ms[j], m); }
        }
      }
    }
  }

  lemma BeforeTotal(a: Machine, b: Machine)
    ensures (a.name == b.name && a.created == b.created) || Before(a, b) || Before(b, a)
    ensures !(Before(a, b) && Before(b, a))
  {
    LexTotal(a.name, b.name);
  }

  lemma BeforeTransitive(a: Machine, b: Machine, c: Machine)
    requires Before(a, b) && Before(b, c)
    ensures Before(a, c)
  {
    if a.created == b.created == c.created { LexTransitive(a.name, b.name, c.name); }
  }

  lemma {:induction false} SortedInOrder(ms: seq<Machine>)
    ensures InCreationOrder(SortedByCreation(ms))
  {
    if ms != [] {
      SortedInOrder(ms[1..]);
      InsertKeepsOrder(ms[0], SortedByCreation(ms[1..]));
    }
  }

  lemma SortedMembers(ms: seq<Machine>)
    ensures forall m :: m in SortedByCreation(ms) <==> m in ms
  {
    forall m ensures m in SortedByCreation(ms) <==> m in ms {
      assert m in multiset(SortedByCreation(ms)) <==> m in multiset(ms);
    }
  }

  predicate NamesApart(ms: seq<Machine>, m: Machine) {
    forall x :: x in ms ==> x.name != m.name
  }

  lemma TailDistinct(ms: seq<Machine>)
    requires DistinctNames(ms) && ms != []
    ensures DistinctNames(ms[1..]) && NamesApart(ms[1..], ms[0])
  {
    var rest := ms[1..];
    forall i, j | 0 <= i < |rest| && 0 <= j < |rest| && rest[i].name == rest[j].name ensures i == j {
      assert rest[i] == ms[i + 1] && rest[j] == ms[j + 1];
    }
    forall m | m in rest ensures m.name != ms[0].name {
      var k :| 0 <= k < |rest| && rest[k] == m;
      assert ms[k + 1] == m;
    }
  }

  lemma ConsDistinct(x: Machine, rest: seq<Machine>)
    requires DistinctNames(rest) && NamesApart(rest, x)
    ensures DistinctNames([x] + rest)
  {
    var r := [x] + rest;
    forall i, j | 0 <= i < j < |r| ensures r[i].name != r[j].name {
      assert r[j] == rest[j - 1] && rest[j - 1] in rest;
      if i > 0 { assert r[i] == rest[i - 1]; }
    }
  }

  // Filtering and sorting keep names distinct.
  lemma {:induction false} WithLabelsDistinct(ms: seq<Machine>, selector: Labels)
    requires DistinctNames(ms)
    ensures DistinctNames(WithLabels(ms, selector))
  {
    if ms != [] {
      TailDistinct(ms);
      WithLabelsDistinct(ms[1..], selector);
      ConsDistinct(ms[0], WithLabels(ms[1..], selector));
      assert [] + WithLabels(ms[1..], selector) == WithLabels(ms[1..], selector);
    }
  }

  lemma {:induction false} InsertDistinct(m: Machine, ms: seq<Machine>)
    requires DistinctNames(ms) && NamesApart(ms, m)
    ensures DistinctNames(InsertByCreation(m, ms))
  {
    if ms != [] && Before(ms[0], m) {
      TailDistinct(ms);
      InsertDistinct(m, ms[1..]);
      var tail := InsertByCreation(m, ms[1..]);
      forall x | x in tail ensures x.name != ms[0].name {
        assert x in multiset(tail);
      }
      ConsDistinct(ms[0], tail);
    } else {
      ConsDistinct(m, ms);
    }
  }

  lemma {:induction false} SortedDistinct(ms: seq<Machine>)
    requires DistinctNames(ms)
    ensures DistinctNames(SortedByCreation(ms))
  {
    if ms != [] {
      SortedDistinct(ms[1..]);
      SortedMembers(ms[1..]);
      TailDistinct(ms);
      InsertDistinct(ms[0], SortedByCreation(ms[1..]));
    }
  }

  lemma SelectedDistinct(s: Store, t: UpdateTask)
    requires DistinctNames(s.machines)
    ensures DistinctNames(Selected(s, t)) && DistinctNames(SortedByCreation(Selected(s, t)))
  {
    if Selector(t).Some? { WithLabelsDistinct(s.machines, Selector(t).value); }
    SortedDistinct(Selected(s, t));
  }

  /** The order is strict, by creation time and then by name: with distinct names the sorted list is the only one. */
  lemma SortedStrictly(ms: seq<Machine>, i: nat, j: nat)
    requires DistinctNames(ms) && i < j < |ms|
    ensures var a, b := SortedByCreation(ms)[i], SortedByCreation(ms)[j];
      a.created < b.created || (a.created == b.created && LexLess(a.name, b.name))
  {
    SortedInOrder(ms);
    SortedDistinct(ms);
    BeforeTotal(SortedByCreation(ms)[i], SortedByCreation(ms)[j]);
  }

  /******* The snapshot in the fields of the task *******/

  // The labels of the machines a task is about.
  predicate IsAboutMachine(t: UpdateTask, m: Machine) {
    && ClusterName in m.labels && m.labels[ClusterName] == t.cluster
    && (if t.controlPlane.Some? then ControlPlaneLabel in m.labels && m.labels[ControlPlaneLabel] == ""
        else t.deployment.Some? && DeploymentName in m.labels && m.labels[DeploymentName] == t.deployment.value)
  }

  lemma SelectedExact(s: Store, t: UpdateTask, m: Machine)
    ensures m in Selected(s, t) <==> m in s.machines && IsAboutMachine(t, m)
  {
    if Selector(t).Some? {
      assert Matches(m.labels, Selector(t).value) <==> IsAboutMachine(t, m);
    }
  }

  /** The snapshot fails exactly when a call fails, the cluster is gone, or the task names neither a control plane nor a
      deployment. It holds the task, the machines the task is about (control-plane machines if it names a control
      plane), and the node tasks of its kind that carry its name. */
  lemma SnapshotExact(s: Store, t: UpdateTask, calls: Calls, kind: string)
    requires IsNodeKind(t.templateRef.kind, kind)
    ensures NewScope(s, t, calls).None? <==>
      || calls.getCluster || calls.listMachines || calls.listNodeTasks || calls.scopeHelper
      || t.cluster !in s.clusters || (t.controlPlane.None? && t.deployment.None?)
    ensures NewScope(s, t, calls).Some? ==>
      var scope := NewScope(s, t, calls).value;
      && scope.task == t
      && (forall m :: m in scope.machines <==> m in s.machines && IsAboutMachine(t, m))
      && (forall n :: n in scope.nodes <==>
            && n in s.nodeTasks && n.gvk.apiVersion == t.templateRef.apiVersion && n.gvk.kind == kind
            && UpdateTaskName in n.labels && n.labels[UpdateTaskName] == t.name)
  {
    if NewScope(s, t, calls).Some? {
      forall m ensures m in Selected(s, t) <==> m in s.machines && IsAboutMachine(t, m) {
        SelectedExact(s, t, m);
      }
      forall n ensures n in ScopeFor(s, t).nodes <==>
        && n in s.nodeTasks && n.gvk.apiVersion == t.templateRef.apiVersion && n.gvk.kind == kind
        && UpdateTaskName in n.labels && n.labels[UpdateTaskName] == t.name
      {
        ListedByKind(s.nodeTasks, t, kind, n);
      }
    }
  }

  // The names agree before place k, and there a ends or has the smaller byte.
  predicate DiffersAt(a: string, b: string, k: nat) {
    k <= |a| && k < |b| && a[..k] == b[..k] && (k == |a| || a[k] < b[k])
  }

  /** Byte order: a proper prefix comes first, otherwise the first difference decides. */
  lemma {:induction false} LexMeans(a: string, b: string)
    ensures LexLess(a, b) <==> exists k: nat :: DiffersAt(a, b, k)
  {
    if a != [] && b != [] && a[0] == b[0] {
      LexMeans(a[1..], b[1..]);
      if k: nat :| DiffersAt(a[1..], b[1..], k) {
        assert a[..k + 1] == [a[0]] + a[1..][..k] && b[..k + 1] == [b[0]] + b[1..][..k];
        assert DiffersAt(a, b, k + 1);
      }
      if k: nat :| DiffersAt(a, b, k) {
        assert a[1..][..k - 1] == a[..k][1..] && b[1..][..k - 1] == b[..k][1..];
        assert DiffersAt(a[1..], b[1..], k - 1);
      }
    } else {
      assert LexLess(a, b) ==> DiffersAt(a, b, 0);
      if a != [] && b != [] { NoDifference(a, b); }
    }
  }

  lemma NoDifference(a: string, b: string)
    requires a != [] && b != [] && a[0] != b[0]
    ensures forall k: nat :: k > 0 ==> !DiffersAt(a, b, k)
  {
    forall k: nat | 0 < k <= |a| && k <= |b| ensures a[..k] != b[..k] {
      assert a[..k][0] == a[0] && b[..k][0] == b[0];
    }
  }
}
