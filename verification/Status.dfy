/** Newest node status per machine, and the tally over the selected machines
    (reconcileStatus in internal/controller/updatetask_controller.go). */
module Status {
  import opened UpdateTypes
  import opened Objects
  import opened Nodes

  type StatusMap = map<string, NodeStatus>

  function AddStatus(m: StatusMap, st: NodeStatus): StatusMap {
    if st.machine in m && !(m[st.machine].created < st.created) then m else m[st.machine := st]
  }

  /** The map both loops over the node tasks build. */
  function Newest(sts: seq<NodeStatus>): StatusMap {
    if sts == [] then map[] else AddStatus(Newest(sts[..|sts| - 1]), sts[|sts| - 1])
  }

  function NewestOf(ns: seq<NodeTask>): StatusMap {
    if AllReadable(ns) then Newest(Statuses(ns)) else map[]
  }

  // Position k holds the first, in list order, of the latest statuses of its machine.
  predicate IsFirstLatest(sts: seq<NodeStatus>, k: nat) {
    && k < |sts|
    && forall j :: 0 <= j < |sts| && sts[j].machine == sts[k].machine ==>
         if j < k then sts[j].created < sts[k].created else sts[j].created <= sts[k].created
  }

  lemma {:induction false} NewestAt(sts: seq<NodeStatus>, machine: string) returns (k: nat)
    requires machine in Newest(sts)
    ensures IsFirstLatest(sts, k) && sts[k].machine == machine && Newest(sts)[machine] == sts[k]
  {
    var n := |sts| - 1;
    var front, last := sts[..n], sts[n];
    if machine == last.machine && !(machine in Newest(front) && !(Newest(front)[machine].created < last.created)) {
      k := n;
      if machine in Newest(front) {
        var p := NewestAt(front, machine);
      } else {
        forall j | 0 <= j < n ensures sts[j].machine != machine {
          assert front[j] in front;
          if sts[j].machine == machine { NewestHas(front, front[j]); }
        }
      }
    } else {
      k := NewestAt(front, machine);
      assert forall j :: 0 <= j < n ==> front[j] == sts[j];
    }
  }

  lemma {:induction false} NewestHas(sts: seq<NodeStatus>, st: NodeStatus)
    requires st in sts
    ensures st.machine in Newest(sts)
  {
    var n := |sts| - 1;
    if st != sts[n] {
      assert st in sts[..n];
      NewestHas(sts[..n], st);
    }
  }

  /** The fold is exact: its keys are the machine names that occur, and each value is the first status,
      in list order, among the latest ones of that machine. */
  lemma NewestExact(sts: seq<NodeStatus>, machine: string)
    ensures machine in Newest(sts) <==> exists st :: st in sts && st.machine == machine
    ensures machine in Newest(sts) ==>
      exists k: nat :: IsFirstLatest(sts, k) && sts[k].machine == machine && Newest(sts)[machine] == sts[k]
  {
    if machine in Newest(sts) {
      var k := NewestAt(sts, machine);
      assert sts[k] in sts;
    } else {
      forall st | st in sts ensures st.machine != machine {
        NewestHas(sts, st);
      }
    }
  }

  predicate DistinctTimes(sts: seq<NodeStatus>) {
    forall x, y :: x in sts && y in sts && x.machine == y.machine && x.created == y.created ==> x == y
  }

  /** Where no machine has two statuses of the same time, list order does not matter. */
  lemma NewestPermutation(a: seq<NodeStatus>, b: seq<NodeStatus>)
    requires multiset(a) == multiset(b) && DistinctTimes(a)
    ensures Newest(a) == Newest(b)
  {
    forall st ensures st in a <==> st in b {
      assert st in multiset(a) <==> st in multiset(b);
    }
    forall machine ensures machine in Newest(a) <==> machine in Newest(b) {
      NewestExact(a, machine);
      NewestExact(b, machine);
    }
    forall machine | machine in Newest(a) ensures Newest(a)[machine] == Newest(b)[machine] {
      var i := NewestAt(a, machine);
      var j := NewestAt(b, machine);
      assert a[i] in b && b[j] in a;
    }
  }

  /******* Tally *******/

  datatype Tally = Tally(updated: nat, aborted: nat, failed: nat, inProgress: nat, waitForUpdate: nat, total: nat)

  const NO_TALLY := Tally(0, 0, 0, 0, 0, 0)

  function Plus(a: Tally, b: Tally): Tally {
    Tally(a.updated + b.updated, a.aborted + b.aborted, a.failed + b.failed, a.inProgress + b.inProgress,
          a.waitForUpdate + b.waitForUpdate, a.total + b.total)
  }

  function Bit(b: bool): nat {
    if b then 1 else 0
  }

  // The share of one machine: its newest status counts, in scope or not.
  function Share(m: Machine, newest: StatusMap, taskName: string): Tally {
    var known := m.name in newest;
    var state := if known then newest[m.name].state else Unknown;
    var inScope := IsMachineInUpdateScope(m, taskName);
    Tally(Bit(known && state.Updated?), Bit(known && state.Aborted?), Bit(known && state.Failed?),
          Bit(known && (state.InProgress? || state.Unknown?)), Bit(!known && inScope), Bit(known || inScope))
  }

  function Count(ms: seq<Machine>, newest: StatusMap, taskName: string): Tally {
    if ms == [] then NO_TALLY
    else Plus(Count(ms[..|ms| - 1], newest, taskName), Share(ms[|ms| - 1], newest, taskName))
  }

  lemma PlusAssociative(a: Tally, b: Tally, c: Tally)
    ensures Plus(Plus(a, b), c) == Plus(a, Plus(b, c))
  {
  }

  lemma CountLast(front: seq<Machine>, x: Machine, newest: StatusMap, taskName: string)
    ensures Count(front + [x], newest, taskName) == Plus(Count(front, newest, taskName), Share(x, newest, taskName))
  {
    assert (front + [x])[..|front + [x]| - 1] == front;
  }

  lemma {:induction false} CountConcat(a: seq<Machine>, b: seq<Machine>, newest: StatusMap, taskName: string)
    ensures Count(a + b, newest, taskName) == Plus(Count(a, newest, taskName), Count(b, newest, taskName))
  {
    if b == [] {
      assert a + b == a;
      assert Count(b, newest, taskName) == NO_TALLY;
    } else {
      var front, x := b[..|b| - 1], b[|b| - 1];
      assert b == front + [x] && a + b == (a + front) + [x];
      CountLast(a + front, x, newest, taskName);
      CountConcat(a, front, newest, taskName);
      PlusAssociative(Count(a, newest, taskName), Count(front, newest, taskName), Share(x, newest, taskName));
      CountLast(front, x, newest, taskName);
    }
  }

  lemma PlusSwap(a: Tally, b: Tally, c: Tally)
    ensures Plus(a, Plus(b, c)) == Plus(Plus(a, c), b)
  {
  }

  lemma CountWithout(left: seq<Machine>, x: Machine, right: seq<Machine>, newest: StatusMap, taskName: string)
    ensures Count(left + [x] + right, newest, taskName) == Count(left + right + [x], newest, taskName)
  {
    var a, b, c := Count(left, newest, taskName), Count([x], newest, taskName), Count(right, newest, taskName);
    CountConcat(left + [x], right, newest, taskName);
    CountConcat(left, [x], newest, taskName);
    CountConcat(left + right, [x], newest, taskName);
    CountConcat(left, right, newest, taskName);
    PlusAssociative(a, b, c);
    PlusSwap(a, b, c);
  }

  lemma Unplace<T>(front: seq<T>, x: T, b: seq<T>) returns (left: seq<T>, right: seq<T>)
    requires multiset(front + [x]) == multiset(b)
    ensures b == left + [x] + right && multiset(front) == multiset(left + right)
  {
    assert multiset(front + [x]) == multiset(front) + multiset{x};
    assert x in multiset(b);
    var k :| 0 <= k < |b| && b[k] == x;
    left, right := b[..k], b[k + 1..];
    assert b == left + [x] + right;
    assert multiset(left + [x] + right) == multiset(left) + multiset{x} + multiset(right);
    assert multiset(front) == multiset(b) - multiset{x} == multiset(left) + multiset(right);
  }

  /** Every counter is independent of the order of the machines. */
  lemma {:induction false} CountPermutation(a: seq<Machine>, b: seq<Machine>, newest: StatusMap, taskName: string)
    requires multiset(a) == multiset(b)
    ensures Count(a, newest, taskName) == Count(b, newest, taskName)
  {
    if a == [] {
      assert |b| == |multiset(b)| == 0;
    } else {
      var front, x := a[..|a| - 1], a[|a| - 1];
      assert a == front + [x];
      var left, right := Unplace(front, x, b);
      CountPermutation(front, left + right, newest, taskName);
      CountWithout(left, x, right, newest, taskName);
      CountLast(front, x, newest, taskName);
      CountLast(left + right, x, newest, taskName);
    }
  }

  predicate IsTracked(m: Machine, newest: StatusMap, taskName: string) {
    m.name in newest || IsMachineInUpdateScope(m, taskName)
  }

  predicate IsUndeclared(m: Machine, newest: StatusMap) {
    m.name in newest && newest[m.name].state.OtherState?
  }

  function Sum(c: Tally): nat {
    c.updated + c.aborted + c.failed + c.inProgress + c.waitForUpdate
  }

  function Tracked(ms: seq<Machine>, newest: StatusMap, taskName: string): set<int> {
    set i | 0 <= i < |ms| && IsTracked(ms[i], newest, taskName)
  }

  function Undeclared(ms: seq<Machine>, newest: StatusMap): set<int> {
    set i | 0 <= i < |ms| && IsUndeclared(ms[i], newest)
  }

  lemma TrackedLast(front: seq<Machine>, x: Machine, newest: StatusMap, taskName: string)
    ensures |Tracked(front + [x], newest, taskName)| ==
            |Tracked(front, newest, taskName)| + Bit(IsTracked(x, newest, taskName))
  {
    assert Tracked(front + [x], newest, taskName) ==
           Tracked(front, newest, taskName) + (if IsTracked(x, newest, taskName) then {|front|} else {});
  }

  lemma UndeclaredLast(front: seq<Machine>, x: Machine, newest: StatusMap)
    ensures |Undeclared(front + [x], newest)| == |Undeclared(front, newest)| + Bit(IsUndeclared(x, newest))
  {
    assert Undeclared(front + [x], newest) ==
           Undeclared(front, newest) + (if IsUndeclared(x, newest) then {|front|} else {});
  }

  lemma ShareTotal(m: Machine, newest: StatusMap, taskName: string)
    ensures Share(m, newest, taskName).total == Bit(IsTracked(m, newest, taskName))
  {
  }

  lemma ShareSum(m: Machine, newest: StatusMap, taskName: string)
    ensures Share(m, newest, taskName).total == Sum(Share(m, newest, taskName)) + Bit(IsUndeclared(m, newest))
  {
  }

  lemma PlusTotals(a: Tally, b: Tally)
    ensures Plus(a, b).total == a.total + b.total && Sum(Plus(a, b)) == Sum(a) + Sum(b)
  {
  }

  lemma {:induction false} TotalIsTracked(ms: seq<Machine>, newest: StatusMap, taskName: string)
    ensures Count(ms, newest, taskName).total == |Tracked(ms, newest, taskName)|
  {
    if ms == [] {
      assert Tracked(ms, newest, taskName) == {};
    } else {
      var front, x := ms[..|ms| - 1], ms[|ms| - 1];
      assert ms == front + [x];
      TotalIsTracked(front, newest, taskName);
      CountLast(front, x, newest, taskName);
      PlusTotals(Count(front, newest, taskName), Share(x, newest, taskName));
      ShareTotal(x, newest, taskName);
      TrackedLast(front, x, newest, taskName);
    }
  }

  lemma {:induction false} TotalExceedsSum(ms: seq<Machine>, newest: StatusMap, taskName: string)
    ensures Count(ms, newest, taskName).total == Sum(Count(ms, newest, taskName)) + |Undeclared(ms, newest)|
  {
    if ms == [] {
      assert Undeclared(ms, newest) == {};
    } else {
      var front, x := ms[..|ms| - 1], ms[|ms| - 1];
      assert ms == front + [x];
      TotalExceedsSum(front, newest, taskName);
      CountLast(front, x, newest, taskName);
      PlusTotals(Count(front, newest, taskName), Share(x, newest, taskName));
      ShareSum(x, newest, taskName);
      UndeclaredLast(front, x, newest);
    }
  }

  /** Nothing is lost in the tally: the total is the number of selected machines that have a node task or
      are in scope, and it is the sum of the five counters exactly when no newest state is undeclared. */
  lemma TallyConservation(ms: seq<Machine>, newest: StatusMap, taskName: string)
    ensures Count(ms, newest, taskName).total == |Tracked(ms, newest, taskName)|
    ensures Count(ms, newest, taskName).total >= Sum(Count(ms, newest, taskName))
    ensures Count(ms, newest, taskName).total == Sum(Count(ms, newest, taskName)) <==>
            forall m :: m in ms ==> !IsUndeclared(m, newest)
  {
    TotalIsTracked(ms, newest, taskName);
    TotalExceedsSum(ms, newest, taskName);
    if m :| m in ms && IsUndeclared(m, newest) {
      var i :| 0 <= i < |ms| && ms[i] == m;
      assert i in Undeclared(ms, newest);
    } else {
      assert Undeclared(ms, newest) == {};
    }
  }

  // Nothing is left to do for a machine: updated, or never part of this rollout.
  predicate IsDone(m: Machine, newest: StatusMap, taskName: string) {
    if m.name in newest then newest[m.name].state.Updated? else !IsMachineInUpdateScope(m, taskName)
  }

  predicate IsRunning(m: Machine, newest: StatusMap) {
    m.name in newest && (newest[m.name].state.InProgress? || newest[m.name].state.Unknown?)
  }

  lemma ShareExact(m: Machine, newest: StatusMap, taskName: string)
    ensures Share(m, newest, taskName).updated <= Share(m, newest, taskName).total
    ensures Share(m, newest, taskName).updated == Share(m, newest, taskName).total <==> IsDone(m, newest, taskName)
    ensures Share(m, newest, taskName).inProgress == 0 <==> !IsRunning(m, newest)
  {
  }

  /** The two comparisons that decide the state of the task mean what they should. */
  lemma {:induction false} TallyExact(ms: seq<Machine>, newest: StatusMap, taskName: string)
    ensures Count(ms, newest, taskName).updated <= Count(ms, newest, taskName).total
    ensures Count(ms, newest, taskName).total == Count(ms, newest, taskName).updated <==>
            forall m :: m in ms ==> IsDone(m, newest, taskName)
    ensures Count(ms, newest, taskName).inProgress == 0 <==> forall m :: m in ms ==> !IsRunning(m, newest)
  {
    if ms != [] {
      var n := |ms| - 1;
      var front, x := ms[..n], ms[n];
      assert forall m :: m in ms <==> m in front || m == x;
      TallyExact(front, newest, taskName);
      ShareExact(x, newest, taskName);
    }
  }

  // How many machines have a newest status, and one in these states.
  function InStates(ms: seq<Machine>, newest: StatusMap, states: set<State>): set<int> {
    set i | 0 <= i < |ms| && ms[i].name in newest && newest[ms[i].name].state in states
  }

  function WithoutStatus(ms: seq<Machine>, newest: StatusMap, taskName: string): set<int> {
    set i | 0 <= i < |ms| && ms[i].name !in newest && IsMachineInUpdateScope(ms[i], taskName)
  }

  lemma InStatesLast(front: seq<Machine>, x: Machine, newest: StatusMap, states: set<State>)
    ensures |InStates(front + [x], newest, states)| ==
            |InStates(front, newest, states)| + Bit(x.name in newest && newest[x.name].state in states)
  {
    assert InStates(front + [x], newest, states) == InStates(front, newest, states) +
      if x.name in newest && newest[x.name].state in states then {|front|} else {};
  }

  lemma WithoutStatusLast(front: seq<Machine>, x: Machine, newest: StatusMap, taskName: string)
    ensures |WithoutStatus(front + [x], newest, taskName)| ==
            |WithoutStatus(front, newest, taskName)| + Bit(x.name !in newest && IsMachineInUpdateScope(x, taskName))
  {
    assert WithoutStatus(front + [x], newest, taskName) == WithoutStatus(front, newest, taskName) +
      if x.name !in newest && IsMachineInUpdateScope(x, taskName) then {|front|} else {};
  }

  lemma CountersLast(front: seq<Machine>, x: Machine, newest: StatusMap, taskName: string)
    requires Counters(front, newest, taskName)
    ensures Counters(front + [x], newest, taskName)
  {
    CountLast(front, x, newest, taskName);
    InStatesLast(front, x, newest, {Updated});
    InStatesLast(front, x, newest, {Aborted});
    InStatesLast(front, x, newest, {Failed});
    InStatesLast(front, x, newest, {InProgress, Unknown});
    WithoutStatusLast(front, x, newest, taskName);
  }

  predicate Counters(ms: seq<Machine>, newest: StatusMap, taskName: string) {
    var c := Count(ms, newest, taskName);
    && c.updated == |InStates(ms, newest, {Updated})|
    && c.aborted == |InStates(ms, newest, {Aborted})|
    && c.failed == |InStates(ms, newest, {Failed})|
    && c.inProgress == |InStates(ms, newest, {InProgress, Unknown})|
    && c.waitForUpdate == |WithoutStatus(ms, newest, taskName)|
  }

  /** Each counter is the number of machines whose newest status is in its states, one that was never written being in
      progress; the last one that of machines in scope without status. */
  lemma {:induction false} CountersExact(ms: seq<Machine>, newest: StatusMap, taskName: string)
    ensures Counters(ms, newest, taskName)
  {
    if ms != [] {
      assert ms == ms[..|ms| - 1] + [ms[|ms| - 1]];
      CountersExact(ms[..|ms| - 1], newest, taskName);
      CountersLast(ms[..|ms| - 1], ms[|ms| - 1], newest, taskName);
    }
  }

  function StateFrom(t: UpdateTask, c: Tally): State {
    if AbortRequested(t) then (if c.inProgress == 0 then Aborted else InProgress)
    else if c.total == c.updated then Updated
    else InProgress
  }

  /******* The MachineUpToDate condition *******/

  // Unknown and undeclared states leave the condition as it is.
  function ConditionFor(m: Machine, newest: StatusMap): UpToDate {
    if m.name in newest then
      match newest[m.name].state
      case Updated => IsUpToDate
      case Aborted => NotUpToDate("Aborted")
      case Failed => NotUpToDate("Failed")
      case InProgress => NotUpToDate("InProgress")
      case _ => m.upToDate
    else NotUpToDate("WaitForUpdate")
  }

  /** A condition patch is a merge: it takes effect where the stored condition is still the one its sender
      read, and otherwise leaves what is there. */
  function Merged(stored: UpToDate, read: UpToDate, wanted: UpToDate): UpToDate {
    if stored == read then wanted else stored
  }

  // The patch of one machine, from the copy that was read, to another condition.
  function PatchUpToDate(ms: seq<Machine>, read: Machine, wanted: UpToDate): (r: seq<Machine>)
    ensures |r| == |ms|
  {
    seq(|ms|, i requires 0 <= i < |ms| =>
      if ms[i].name == read.name then ms[i].(upToDate := Merged(ms[i].upToDate, read.upToDate, wanted)) else ms[i])
  }

  // A machine is patched when it is in scope, its condition changes and no call for it fails.
  predicate GetsPatched(m: Machine, newest: StatusMap, taskName: string, calls: Calls) {
    && IsMachineInUpdateScope(m, taskName)
    && ConditionFor(m, newest) != m.upToDate
    && m.name !in calls.machineHelpers
    && m.name !in calls.machinePatches
  }

  function PatchOne(stored: seq<Machine>, m: Machine, newest: StatusMap, taskName: string, calls: Calls): seq<Machine> {
    if GetsPatched(m, newest, taskName, calls) then PatchUpToDate(stored, m, ConditionFor(m, newest)) else stored
  }

  function PatchAll(
    stored: seq<Machine>, todo: seq<Machine>, newest: StatusMap, taskName: string, calls: Calls): (r: seq<Machine>)
    ensures |r| == |stored|
  {
    if todo == [] then stored
    else
      var n := |todo| - 1;
      PatchOne(PatchAll(stored, todo[..n], newest, taskName, calls), todo[n], newest, taskName, calls)
  }

  // The patch of a machine that is as it was read.
  lemma PatchedLast(
    stored: seq<Machine>, before: seq<Machine>, m: Machine, newest: StatusMap, taskName: string, calls: Calls)
    requires |before| == |stored| && forall i :: 0 <= i < |stored| ==> before[i].name == stored[i].name
    requires forall i :: 0 <= i < |stored| && stored[i].name == m.name ==> stored[i] == m && before[i] == m
    ensures forall i :: 0 <= i < |stored| ==>
      PatchOne(before, m, newest, taskName, calls)[i] ==
        if stored[i] == m && GetsPatched(m, newest, taskName, calls)
        then m.(upToDate := ConditionFor(m, newest)) else before[i]
  {
  }

  /** Patching changes no machine except the conditions of those that get patched. */
  lemma {:induction false} PatchAllExact(
    stored: seq<Machine>, todo: seq<Machine>, newest: StatusMap, taskName: string, calls: Calls)
    requires DistinctNames(stored) && DistinctNames(todo)
    requires forall m :: m in todo ==> m in stored
    ensures forall i :: 0 <= i < |stored| ==>
      PatchAll(stored, todo, newest, taskName, calls)[i] ==
        if stored[i] in todo && GetsPatched(stored[i], newest, taskName, calls)
        then stored[i].(upToDate := ConditionFor(stored[i], newest)) else stored[i]
  {
    if todo != [] {
      var front, last := todo[..|todo| - 1], todo[|todo| - 1];
      assert todo == front + [last];
      PatchAllExact(stored, front, newest, taskName, calls);
      assert last in todo && forall k :: 0 <= k < |front| ==> front[k] == todo[k] && todo[k].name != last.name;
      forall i | 0 <= i < |stored| ensures stored[i].name == last.name <==> stored[i] == last {
        var k :| 0 <= k < |stored| && stored[k] == last;
      }
      PatchedLast(stored, PatchAll(stored, front, newest, taskName, calls), last, newest, taskName, calls);
    }
  }
}
