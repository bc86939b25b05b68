/** The contract between the rollout and the node providers (pkg/nodes/nodeupdatetask.go):
    reading, aborting, creating and listing node update tasks. */
module Nodes {
  import opened UpdateTypes
  import opened Objects

  datatype NodeStatus = NodeStatus(created: int, machine: string, phase: Phase, state: State)

  // A status that was never written, or cannot be decoded, reads as Unknown.
  function StateOf(n: NodeTask): State {
    if n.state.Some? then n.state.value else Unknown
  }

  predicate IsReadable(n: NodeTask) {
    n.machineName.Some? && n.phase.Some?
  }

  function StatusOf(n: NodeTask): NodeStatus
    requires IsReadable(n)
  {
    NodeStatus(n.created, n.machineName.value, n.phase.value, StateOf(n))
  }

  predicate AllReadable(ns: seq<NodeTask>) {
    forall n :: n in ns ==> IsReadable(n)
  }

  function Statuses(ns: seq<NodeTask>): (r: seq<NodeStatus>)
    requires AllReadable(ns)
    ensures |r| == |ns|
  {
    seq(|ns|, i requires 0 <= i < |ns| => StatusOf(ns[i]))
  }

  /** What one list call asks for: a kind of node task and the name of the update task. */
  datatype NodeKey = NodeKey(gvk: Gvk, task: string)

  function TrimTemplateSuffix(kind: string): string {
    if |kind| >= 8 && kind[|kind| - 8..] == "Template" then kind[..|kind| - 8] else kind
  }

  function NodeGvk(templateRef: ObjectRef): Gvk {
    Gvk(templateRef.apiVersion, TrimTemplateSuffix(templateRef.kind))
  }

  function KeyOf(t: UpdateTask): NodeKey {
    NodeKey(NodeGvk(t.templateRef), t.name)
  }

  predicate BelongsTo(n: NodeTask, key: NodeKey) {
    n.gvk == key.gvk && UpdateTaskName in n.labels && n.labels[UpdateTaskName] == key.task
  }

  /** The label-filtered list, in the server's order. */
  function Listed(ns: seq<NodeTask>, key: NodeKey): seq<NodeTask> {
    if ns == [] then []
    else (if BelongsTo(ns[0], key) then [ns[0]] else []) + Listed(ns[1..], key)
  }

  // No machine has two node tasks.
  predicate OnePerMachine(ns: seq<NodeTask>) {
    forall i, j | 0 <= i < |ns| && 0 <= j < |ns| && ns[i].machineName.Some? && ns[i].machineName == ns[j].machineName ::
      i == j
  }

  predicate HasNode(ns: seq<NodeTask>, machineName: string) {
    exists n :: n in ns && n.machineName == Some(machineName)
  }

  // Aborting patches the phase of one object and nothing else.
  function SetAbort(ns: seq<NodeTask>, target: NodeTask): (r: seq<NodeTask>)
    ensures |r| == |ns|
  {
    seq(|ns|, i requires 0 <= i < |ns| =>
      if SameNode(ns[i], target) then ns[i].(phase := Some(Abort)) else ns[i])
  }

  // The labels of a node task name the cluster and the update task it was created for.
  function MarkedLabels(t: UpdateTask): Labels {
    (if t.templateLabels.Some? then t.templateLabels.value else map[])
    [ClusterName := t.cluster][UpdateTaskName := t.name]
  }

  // A non-nil label map is the task's own: writing the labels writes the task.
  function MarkTask(t: UpdateTask): UpdateTask {
    if t.templateLabels.Some? then t.(templateLabels := Some(MarkedLabels(t))) else t
  }

  function NewNodeTask(t: UpdateTask, machineName: string, templateLabels: Labels, g: Generated): NodeTask {
    NodeTask(NodeGvk(t.templateRef), g.name, templateLabels + MarkedLabels(t), g.created, t.newMachine,
             Some(machineName), Some(Update), None)
  }

  /** What creating a node task leaves behind: the task in memory may be marked even when the call fails. */
  datatype Creation = Creation(store: Store, task: UpdateTask, ok: bool)

  predicate NodeExists(ns: seq<NodeTask>, n: NodeTask) {
    exists x :: x in ns && SameNode(x, n)
  }

  function Create(s: Store, t: UpdateTask, machineName: string, calls: Calls): (c: Creation)
    ensures c.task.name == t.name && c.store == s.(nodeTasks := c.store.nodeTasks)
  {
    if calls.getTemplate || t.templateRef !in s.templates then Creation(s, t, false)
    else if calls.buildNodeTask then Creation(s, MarkTask(t), false)
    else
      var n := NewNodeTask(t, machineName, s.templates[t.templateRef], calls.generated);
      if calls.createNodeTask || NodeExists(s.nodeTasks, n) then Creation(s, MarkTask(t), false)
      else Creation(s.(nodeTasks := Insert(s.nodeTasks, calls.generated.position, n)), MarkTask(t), true)
  }

  lemma {:induction false} ListedMembers(ns: seq<NodeTask>, key: NodeKey)
    ensures forall n :: n in Listed(ns, key) <==> n in ns && BelongsTo(n, key)
  {
    if ns != [] {
      ListedMembers(ns[1..], key);
    }
  }

  lemma {:induction false} ListedConcat(a: seq<NodeTask>, b: seq<NodeTask>, key: NodeKey)
    ensures Listed(a + b, key) == Listed(a, key) + Listed(b, key)
  {
    if a == [] {
      assert a + b == b;
    } else {
      ListedConcat(a[1..], b, key);
      assert (a + b)[1..] == a[1..] + b && (a + b)[0] == a[0];
      var head := if BelongsTo(a[0], key) then [a[0]] else [];
      assert head + (Listed(a[1..], key) + Listed(b, key)) == head + Listed(a[1..], key) + Listed(b, key);
    }
  }

  // A new object keeps identities distinct.
  lemma InsertDistinctNodes(ns: seq<NodeTask>, p: nat, n: NodeTask)
    requires DistinctNodes(ns) && !NodeExists(ns, n)
    ensures DistinctNodes(Insert(ns, p, n))
  {
    assert forall i :: 0 <= i < |ns| ==> ns[i] in ns;
  }

  // A new object appears in exactly the lists it matches, at one place.
  lemma ListedInsert(ns: seq<NodeTask>, at: nat, n: NodeTask, key: NodeKey) returns (k: nat)
    ensures !BelongsTo(n, key) ==> Listed(Insert(ns, at, n), key) == Listed(ns, key)
    ensures BelongsTo(n, key) ==>
      k <= |Listed(ns, key)| && Listed(Insert(ns, at, n), key) == Insert(Listed(ns, key), k, n)
  {
    var p := if at <= |ns| then at else |ns|;
    var front, back := Listed(ns[..p], key), Listed(ns[p..], key);
    k := |front|;
    assert Listed([n], key) == if BelongsTo(n, key) then [n] else [];
    ListedConcat(ns[..p], [n] + ns[p..], key);
    ListedConcat([n], ns[p..], key);
    assert ns == ns[..p] + ns[p..];
    ListedConcat(ns[..p], ns[p..], key);
    assert Insert(ns, at, n) == ns[..p] + ([n] + ns[p..]);
    assert (front + back)[..k] == front && (front + back)[k..] == back;
  }

  /** Writer and reader agree: after a successful creation the next list of the task holds exactly one
      node task more, which reads back as the machine it was created for, in phase Update and state
      Unknown; the list of every task with another name is as before. */
  lemma CreateThenList(s: Store, t: UpdateTask, machineName: string, calls: Calls) returns (n: NodeTask, k: nat)
    requires Create(s, t, machineName, calls).ok
    ensures var s' := Create(s, t, machineName, calls).store;
      && var before, after := Listed(s.nodeTasks, KeyOf(t)), Listed(s'.nodeTasks, KeyOf(t));
      && k <= |before| && after == Insert(before, k, n)
      && IsReadable(n) && StatusOf(n) == NodeStatus(calls.generated.created, machineName, Update, Unknown)
      && n.newMachine == t.newMachine
      && !NodeExists(s.nodeTasks, n)
      && (forall other: UpdateTask :: other.name != t.name ==>
            Listed(s'.nodeTasks, KeyOf(other)) == Listed(s.nodeTasks, KeyOf(other)))
      && s' == s.(nodeTasks := s'.nodeTasks)
      && KeyOf(Create(s, t, machineName, calls).task) == KeyOf(t)
  {
    n := NewNodeTask(t, machineName, s.templates[t.templateRef], calls.generated);
    k := ListedInsert(s.nodeTasks, calls.generated.position, n, KeyOf(t));
    forall other: UpdateTask | other.name != t.name
      ensures Listed(Insert(s.nodeTasks, calls.generated.position, n), KeyOf(other)) ==
              Listed(s.nodeTasks, KeyOf(other))
    {
      var _ := ListedInsert(s.nodeTasks, calls.generated.position, n, KeyOf(other));
    }
  }

  /******* Kinds, lists and objects in their fields *******/

  // The kind of node task that goes with the kind of a template: without the suffix, if there is one.
  ghost predicate IsNodeKind(templateKind: string, kind: string) {
    || templateKind == kind + "Template"
    || (templateKind == kind && forall k: string :: templateKind != k + "Template")
  }

  lemma NodeKindExact(apiVersion: string, templateKind: string, name: string, kind: string)
    requires IsNodeKind(templateKind, kind)
    ensures NodeGvk(ObjectRef(apiVersion, templateKind, name)) == Gvk(apiVersion, kind)
  {
    if templateKind == kind + "Template" {
      assert templateKind[|templateKind| - 8..] == "Template" && templateKind[..|templateKind| - 8] == kind;
    } else if |templateKind| >= 8 && templateKind[|templateKind| - 8..] == "Template" {
      assert templateKind == templateKind[..|templateKind| - 8] + "Template";
    }
  }

  /** A template of kind K + "Template" stands for node tasks of kind K, and any other kind for itself. */
  lemma TemplateKinds(apiVersion: string, k: string, name: string)
    ensures NodeGvk(ObjectRef(apiVersion, k + "Template", name)) == Gvk(apiVersion, k)
    ensures (forall p: string :: k != p + "Template") ==> NodeGvk(ObjectRef(apiVersion, k, name)) == Gvk(apiVersion, k)
  {
    NodeKindExact(apiVersion, k + "Template", name, k);
    if forall p: string :: k != p + "Template" { NodeKindExact(apiVersion, k, name, k); }
  }

  /** The list of a task holds the node tasks of that API version and kind that are labelled with its name. */
  lemma ListedByKind(ns: seq<NodeTask>, t: UpdateTask, kind: string, n: NodeTask)
    requires IsNodeKind(t.templateRef.kind, kind)
    ensures n in Listed(ns, KeyOf(t)) <==>
      && n in ns && n.gvk.apiVersion == t.templateRef.apiVersion && n.gvk.kind == kind
      && UpdateTaskName in n.labels && n.labels[UpdateTaskName] == t.name
  {
    NodeKindExact(t.templateRef.apiVersion, t.templateRef.kind, t.templateRef.name, kind);
    ListedMembers(ns, KeyOf(t));
  }

  // The labels of a node task: cluster and update task, then those of the task, then those of the template.
  predicate HasLabels(labels: Labels, t: UpdateTask, templateLabels: Labels) {
    && ClusterName in labels && labels[ClusterName] == t.cluster
    && UpdateTaskName in labels && labels[UpdateTaskName] == t.name
    && (forall k :: k in labels && k != ClusterName && k != UpdateTaskName ==>
          if t.templateLabels.Some? && k in t.templateLabels.value then labels[k] == t.templateLabels.value[k]
          else k in templateLabels && labels[k] == templateLabels[k])
    && (forall k :: k in templateLabels ==> k in labels)
    && (t.templateLabels.Some? ==> forall k :: k in t.templateLabels.value ==> k in labels)
  }

  // An object of this kind and name is there already.
  predicate IsTaken(ns: seq<NodeTask>, apiVersion: string, kind: string, name: string) {
    exists n :: n in ns && n.gvk.apiVersion == apiVersion && n.gvk.kind == kind && n.name == name
  }

  /** When a creation succeeds, and what it creates, field by field; a failed one leaves the store. The label map of
      the task in memory is written, when it has one, as soon as the template has been read. */
  lemma CreateOutcome(s: Store, t: UpdateTask, machineName: string, calls: Calls, kind: string)
    requires IsNodeKind(t.templateRef.kind, kind)
    ensures var c, g := Create(s, t, machineName, calls), calls.generated;
      && (c.ok <==>
            && !calls.getTemplate && t.templateRef in s.templates && !calls.buildNodeTask && !calls.createNodeTask
            && !IsTaken(s.nodeTasks, t.templateRef.apiVersion, kind, g.name))
      && (!c.ok ==> c.store == s)
      && (c.ok ==> exists p: nat, labels ::
            && p <= |s.nodeTasks| && HasLabels(labels, t, s.templates[t.templateRef])
            && c.store == s.(nodeTasks := s.nodeTasks[..p] +
                 [NodeTask(Gvk(t.templateRef.apiVersion, kind), g.name, labels, g.created, t.newMachine,
                           Some(machineName), Some(Update), None)] + s.nodeTasks[p..]))
      && c.task == if calls.getTemplate || t.templateRef !in s.templates || t.templateLabels.None? then t
                   else
                     var labels := t.templateLabels.value[ClusterName := t.cluster][UpdateTaskName := t.name];
                     t.(templateLabels := Some(labels))
  {
    NodeKindExact(t.templateRef.apiVersion, t.templateRef.kind, t.templateRef.name, kind);
    if t.templateRef in s.templates {
      var n := NewNodeTask(t, machineName, s.templates[t.templateRef], calls.generated);
      assert NodeExists(s.nodeTasks, n) <==> IsTaken(s.nodeTasks, t.templateRef.apiVersion, kind, calls.generated.name);
      assert HasLabels(n.labels, t, s.templates[t.templateRef]);
    }
  }
}
