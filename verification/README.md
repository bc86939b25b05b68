# Verified model of the in-place rolling update

An `UpdateTask` rolls an update over the machines of a control plane, one machine at a time. Three actors
share the objects of a namespace: the update task controller, which creates and aborts one node update task
per machine; the node providers, which move the states of node update tasks; and the lifecycle handler, which
supersedes a running task by a new one. The guarantees of the rollout live in no single function. This project
models the three actors and proves the guarantees for every store, every interleaving and every failing call.

The model has three layers.

- **Methods over a mutable API server** (`Client`, `ControlPlanes`, `Controller`, `Handlers`): the loops of
  the source, with its early returns, its deferred function, the shared task pointer and the label map it
  writes through. A value of type `Calls` or `HandlerCalls` says which API calls fail.
- **Functions on a store value** (`Nodes`, `Scopes`, `Status`, `Rollout`, the functions of `Handlers`): each
  method is proved to do to the server exactly what its function does to a store. `Outcomes` and `RolloutFacts`
  prove what one reconcile does and answers, `HandlerLoops`, `Requests` and `HandOver` what one request does and
  answers, in the fields of the objects they read.
- **A protocol** (`Protocol`): a reconcile takes a snapshot, then writes piece by piece with steps of all
  other actors in between, and may stop anywhere; a request lists machines and annotates them one by one later.
  `Refinement` and `HandOver` prove that the controller and the handler only do what runs of the protocol do.
  `Invariants`, `Guarantees`, `Ordered`, `Membership`, `Quorum`, `FleetQuorum`, `Progress`, `Completion` and
  `MachineCondition` prove what holds of all runs; `Starts` and `Limits` show by runs from fresh stores where a
  guarantee ends.

Assumptions about who does what, visible as guards of `Protocol.Enabled` and `Protocol.EnvEnabled`: one reconcile
at a time per task; terminal states of node update tasks are stable; only the controller creates node update
tasks and nobody deletes them; only the handler writes the scope annotation and machines join without one; only
the controller and the handler write the `MachineUpToDate` condition; generated names are fresh.

Assumptions about what stays fixed, visible in `Protocol.Next`: the references and labels of a stored task (a
change of its template's kind would change which node tasks it lists), the labels and creation times of machines,
and all control planes, clusters, templates and policies, never change during a run. The template labels of a
task change only when a creation writes them.

Assumptions about the API: reads see the current store, and in particular a list of node update tasks sees the
controller's own earlier creates; the snapshot of a reconcile (task, cluster, machines, node update tasks) is one
atomic read; a patch is atomic and sends the differences to what its sender read. A difference in a condition is
merged as the patch library does it: it takes effect where the stored condition is still the one that was read,
and otherwise leaves what is there (`Status.Merged`). Conditions are compared by status and reason, without their
transition time, which the library compares as well: one that went away and came back counts as unchanged here.

What the proofs say that the code or its messages do not:

- A terminated task is looked at again every 100 ms for ever, although no such look changes anything
  (`RolloutFacts.TerminatedIsUntouched`).
- An accepted request may have created no task: this is so exactly when a machine patch failed, because the
  handler then wraps the nil error of its patch helper (`HandOver.AcceptedExact`, `HandOver.AcceptedWithoutTask`).
- `Aborted` is reported while a node update task runs exactly when the machine of that task is no longer
  selected (`RolloutFacts.AbortedWaitsForSelected`, `Guarantees.AbortedIsSound`, `Limits.AbortedWhileRunning`).
- A failed node task blocks the creation of further ones for ever, also after remediation of its machine, contrary
  to the message at line 194 of the controller. If every machine still selected is done, the task is reported
  `Updated` all the same (`Guarantees.FailedBlocks`, `Guarantees.UpdatedIsSound`, `Limits.UpdatedDespiteFailure`).
- Two tasks of one control plane that work at the same time can take two of its machines down, no more: five
  machines keep a majority then, three may not (`FleetQuorum.FleetQuorumKept`, `Limits.OverlapTakesTwoDown`).
- `MachineUpToDate` can be true of a machine no task in charge has updated. Exactly two kinds of steps bring this
  about: a report that lands after the machine was handed to a task that has not updated it, and an annotation
  whose machine was listed before it was reported up to date, since the handler's patch deletes only a condition
  it has listed. Both happen in runs from fresh stores; neither happens while no request and no reconcile overlap
  on a machine (`MachineCondition.UpToDateIsExact`, `MachineCondition.UpToDateIsTrue`, `Limits.FalseReports`).

## Model

| member | source | states |
|---|---|---|
| Client.GetNodeUpdateTaskStatus | pkg/nodes/nodeupdatetask.go:28-44 | a node task reads if and only if its machine name and phase do; a missing state reads as Unknown |
| Client.AbortNodeUpdateTask | pkg/nodes/nodeupdatetask.go:46-49 | the patch sets the phase of that one object to Abort, or fails and changes nothing |
| Client.CreateNodeUpdateTask | pkg/nodes/nodeupdatetask.go:57-117 | the call leaves the store and the task in memory, whose label map it may write even when it fails, as the creation function says |
| Nodes.CreateThenList | pkg/nodes/nodeupdatetask.go:63-116 | round trip: after a successful creation the task's list has exactly one entry more, which reads back as that machine, phase Update, state Unknown; no other task's list changes |
| Nodes.ListedInsert | pkg/scopes/updatetask_scope.go:67-77 | a new object enters exactly the label-filtered lists it matches, at one place, wherever the server sorts it |
| Nodes.TemplateKinds | pkg/scopes/updatetask_scope.go:67-69 | a template of kind K followed by Template stands for node tasks of kind K in the same API version, and any other kind for itself |
| Nodes.ListedByKind | pkg/scopes/updatetask_scope.go:67-77 | the list of a task holds exactly the stored node tasks of that API version and kind that are labelled with its name |
| Nodes.CreateOutcome | pkg/nodes/nodeupdatetask.go:57-117 | when a creation succeeds, the created object field by field (kind, name, labels of cluster and update task over those of task and template, machine, phase, machine spec), and what becomes of the label map in memory |
| Client.New | pkg/scopes/updatetask_scope.go:29-93 | the snapshot exists exactly when the cluster and one of the two references do and no call fails, and it holds the selected machines and the task's node tasks |
| Scopes.SnapshotExact | pkg/scopes/updatetask_scope.go:29-93 | the snapshot fails exactly for the failing calls, a missing cluster, or a task without references; it holds the machines with the labels of control plane or deployment, and the node tasks of the kind with the name of the task |
| Scopes.SortedByCreation | internal/controller/updatetask_controller.go:217 | the sorted machines are a permutation of the selected ones |
| Scopes.SortedStrictly | internal/controller/updatetask_controller.go:217 | distinct machines are strictly ordered by creation time and then name, so the order is unique |
| Scopes.LexMeans | internal/controller/updatetask_controller.go:217 | names compare byte by byte: a proper prefix first, else the first difference decides |
| Status.NewestExact | internal/controller/updatetask_controller.go:245-265 | the keys of the map are exactly the machine names that occur; each value is the first in list order among the latest of its machine |
| Status.NewestPermutation | internal/controller/updatetask_controller.go:168-187 | with distinct times per machine the map is the same for every order of the list |
| Status.TallyConservation | internal/controller/updatetask_controller.go:267-291 | the total counts the selected machines with a node task or in scope, and equals the sum of the five counters exactly when no newest state is undeclared |
| Status.CountPermutation | internal/controller/updatetask_controller.go:273-291 | every counter is independent of machine order |
| Status.CountersExact | internal/controller/updatetask_controller.go:267-291 | each counter is the number of machines with newest status in its states, a state never written counting as in progress, and waitForUpdate that of machines in scope without status |
| Status.TallyExact | internal/controller/updatetask_controller.go:326-348 | total equals updated exactly when every machine is done; inProgress is zero exactly when no machine's newest node task is running |
| Status.PatchAllExact | internal/controller/updatetask_controller.go:293-321 | the patches change the condition of exactly the in-scope machines whose condition differs and whose calls succeed, and nothing else |
| ControlPlanes.PreflightCheckCondition | internal/controller/controlplanes/kubeadm.go:135-147 | a condition is accepted exactly when it is present and neither False nor Unknown |
| ControlPlanes.MachineErrors | internal/controller/controlplanes/kubeadm.go:107-119 | no error is added exactly when the machine has a node and meets every required condition |
| ControlPlanes.AllMachineErrors | internal/controller/controlplanes/kubeadm.go:95-120 | in whatever order the machines are visited, there is no error exactly when every machine is excluded or healthy |
| ControlPlanes.PreflightChecks | internal/controller/controlplanes/kubeadm.go:53-129 | the outcome is that of the order-free specification: error, retry in 30 s, retry in 15 s, or pass |
| ControlPlanes.PreflightCheckForKubeadmControlPlane | internal/controller/controlplanes/kubeadm.go:35-43 | the gate of the referenced control plane, an error if it cannot be read |
| ControlPlanes.GateExact | internal/controller/controlplanes/kubeadm.go:69-147 | the gate passes if and only if no owned machine is deleting and all are healthy |
| ControlPlanes.HealthyMeans | internal/controller/controlplanes/kubeadm.go:81-147 | a healthy machine has a node, and the three pod conditions, and the two of etcd unless etcd is external, are present and neither False nor Unknown |
| ControlPlanes.PreflightOutcome | internal/controller/controlplanes/kubeadm.go:53-147 | the whole outcome of the check in the fields of control plane and machines, excluded machines being exempt from the conditions but not from deletion: errors; 30 seconds for a deleting machine; 15 for an unhealthy one; else it passes |
| ControlPlanes.GateOutcome | internal/controller/controlplanes/kubeadm.go:35-147 | the whole outcome of the gate in the fields of task, control plane and machines: other kinds pass; errors; 30 seconds for a deleting machine; 15 seconds for an unhealthy one; else it passes |
| Rollout.NodeGate | internal/controller/updatetask_controller.go:168-199 | the loop goes through if and only if every node task is readable and Updated or Aborted |
| Controller.UpdateTaskReconciler.Reconcile | internal/controller/updatetask_controller.go:71-135 | a reconcile with its deferred function changes the server, and returns, exactly as the specification says, whatever calls fail |
| Controller.UpdateTaskReconciler.ReconcileLoaded | internal/controller/updatetask_controller.go:109-134 | finalizer first, then snapshot, status, and abort or update |
| Controller.UpdateTaskReconciler.ReconcileAbort | internal/controller/updatetask_controller.go:137-165 | the loop's effect and its failure are those of the abort specification |
| Controller.UpdateTaskReconciler.ReconcileNormal | internal/controller/updatetask_controller.go:167-215 | blocks, fails, waits for the gate or goes on to create exactly as specified; its map of newest statuses is that of the status loop |
| Controller.UpdateTaskReconciler.CreateForNextMachine | internal/controller/updatetask_controller.go:217-241 | creates for the first machine in creation order that is in scope and has no node task, or for none |
| Controller.UpdateTaskReconciler.ReconcileStatus | internal/controller/updatetask_controller.go:244-351 | sets the state of the shared task object and patches machine conditions as specified, or fails on an unreadable node task without any change |
| Controller.UpdateTaskReconciler.TallyMachines | internal/controller/updatetask_controller.go:267-322 | the counters and the patched machines after the loop over all machines |
| Controller.UpdateTaskReconciler.CountMachine | internal/controller/updatetask_controller.go:275-291 | which counters one machine moves |
| Controller.UpdateTaskReconciler.PatchCondition | internal/controller/updatetask_controller.go:293-321 | the condition one machine gets, and when nothing is sent |
| RolloutFacts.UpdatedIsExact | internal/controller/updatetask_controller.go:337-347 | without abort, Updated is reported if and only if every selected machine has newest node task Updated, or none and is out of scope |
| RolloutFacts.UpdatedIsQuiet | internal/controller/updatetask_controller.go:217-241 | the reconcile that reports Updated creates and aborts nothing |
| RolloutFacts.UpdatedMarksMachines | internal/controller/updatetask_controller.go:293-321 | and, when no machine patch fails, every machine in scope ends up to date and is otherwise unchanged |
| RolloutFacts.AbortedIsExact | internal/controller/updatetask_controller.go:326-336 | under an abort, Aborted is reported if and only if no selected machine's newest node task is running |
| RolloutFacts.AbortedWaitsForSelected | internal/controller/updatetask_controller.go:326-336 | with one node task per machine, Aborted is reported if and only if none is running for a machine still selected |
| RolloutFacts.AbortIsSafe | internal/controller/updatetask_controller.go:137-165 | a reconcile under an abort creates nothing, touches no terminated node task, and if it succeeds leaves every node task terminated or in phase Abort |
| RolloutFacts.AbortedIsQuiet | internal/controller/updatetask_controller.go:139-161 | with one node task per machine, the reconcile that reports Aborted sends abort patches only to node tasks of machines no longer selected or in an undeclared state, and none if there are none of these |
| Guarantees.AbortedIsSound | internal/controller/updatetask_controller.go:326-336 | the same without assumption for every reachable state of an aborted task: all its node tasks can be read, Aborted is reported if and only if none of a selected machine is running, and abort patches then go only to strays |
| Limits.AbortedWhileRunning | internal/controller/updatetask_controller.go:326-336 | in every rollout that can start from a fresh store some run leads to a reconcile without failures that saves Aborted while the node task of a removed machine runs |
| RolloutFacts.TerminatedIsUntouched | internal/controller/updatetask_controller.go:89-113 | a reconcile of a terminated task leaves the store as it is under all failures, and asks to be called again after 100 ms |
| RolloutFacts.NoTaskIsLost | internal/controller/updatetask_controller.go:89-134 | every reconcile of a stored task ends with an error, a request to be called again, or the task saved terminated without finalizer |
| Outcomes.ReconcileFails | internal/controller/updatetask_controller.go:71-242 | a reconcile fails exactly when a call it makes fails, the snapshot, a node task, the control plane or the template cannot be read, or the creation is refused |
| Outcomes.ReconcileResult | internal/controller/updatetask_controller.go:89-134 | what it asks for: 100 ms after setting the finalizer or creating, the time of the gate, nothing on failure or at the end, else at once |
| Outcomes.BlockedIsQuiet | internal/controller/updatetask_controller.go:189-198 | a running or failed node task is no error: nothing is created and the task is looked at again at once, unless all selected machines are done |
| Outcomes.StateMeans | internal/controller/updatetask_controller.go:324-348 | the state a readable snapshot gives, from deletion mark, phase, and the newest node task of each selected machine |
| Outcomes.ReportedCondition | internal/controller/updatetask_controller.go:301-314 | after a reconcile the condition of a reported machine is True for Updated, False with reason Failed, Aborted or InProgress for these states, and what it was before for any other |
| Outcomes.WaitingCondition | internal/controller/updatetask_controller.go:315-316 | and False with reason WaitForUpdate without node task |
| Outcomes.OtherMachines | internal/controller/updatetask_controller.go:293-321 | no other machine changes in any reconcile, nor one whose calls fail |
| Outcomes.ReconcileCreates | internal/controller/updatetask_controller.go:168-241 | a reconcile creates exactly if no abort is asked for, every node task is Updated or Aborted, the gate passes, a machine is next up and the creation is not refused; and then for the earliest such machine; without abort nothing else happens to node tasks |
| Outcomes.ReconcileAborts | internal/controller/updatetask_controller.go:137-165 | under deletion or the Abort phase exactly the unfinished node tasks before the first failing patch in list order go to phase Abort |
| Outcomes.ReconcileSaves | internal/controller/updatetask_controller.go:89-134 | what a reconcile writes to its task, finalizer, state and labels, and that it writes no other task |
| Invariants.CreationIsSafe | internal/controller/updatetask_controller.go:168-237 | when a node task is created, all earlier ones of the task are Updated or Aborted now, not only in the snapshot, and none is for that machine |
| Invariants.InvStep | internal/controller/updatetask_controller.go:71-351 | every step of every actor keeps the invariant: valid store, terminated without finalizer, snapshots in step with the store, serial and unique node tasks |
| Invariants.InvRun | internal/controller/updatetask_controller.go:71-351 | hence every run keeps it |
| Invariants.SerialRollout | internal/controller/updatetask_controller.go:169-237 | in every reachable state at most one node task of an update task is outside Updated and Aborted, and no machine has two |
| Guarantees.TerminatedForEver | internal/controller/updatetask_controller.go:89-113 | from a terminated state on, in every run: same state, no finalizer, no node task created or aborted, no machine patched for the task |
| Guarantees.StateMachine | internal/controller/updatetask_controller.go:326-348 | over every run a task only moves from empty to InProgress to Updated or Aborted, never back and never to Failed |
| Guarantees.NothingCreatedAfterAbort | internal/controller/updatetask_controller.go:124-127 | no reconcile that starts after an abort request creates a node task while the request is in force |
| Guarantees.ReleasedForEver | internal/controller/updatetask_controller.go:220 | a machine that has left the scope of a stored task never returns to it, and gets no node task and no patch from it |
| Ordered.OrderStep | internal/controller/updatetask_controller.go:217-237 | each step keeps the machines with a node task a prefix of the queue of in-scope machines |
| Ordered.OrderedRollout | internal/controller/updatetask_controller.go:217-237 | over every run from a fresh store without machine or scope changes they form a prefix in creation order, so node tasks never outnumber machines in scope |
| Quorum.QuorumStep | internal/controller/updatetask_controller.go:203-237 | each step keeps: between gate and creation all machines are healthy, after it only the last target may be unhealthy |
| Quorum.QuorumKept | internal/controller/controlplanes/kubeadm.go:77-128 | from the first creation on, unhealthy machines are at most the one of the latest node task, and three or more machines keep a strict majority healthy; machines may leave, and join healthy |
| FleetQuorum.FleetInvStep | internal/controller/controlplanes/kubeadm.go:77-128 | with several tasks of one control plane at work at once, each step keeps: every unhealthy machine is the latest target of one of them |
| FleetQuorum.FleetQuorumKept | internal/controller/controlplanes/kubeadm.go:77-128 | so through any hand-over and any overlap, from the first creation on, at most as many machines are unhealthy as there are tasks, and more than twice as many machines keep a strict majority healthy |
| Limits.OverlapTakesTwoDown | internal/controller/updatetask_controller.go:201-237 | the bound is sharp: two fresh tasks of one control plane that start with different machines have a calm run that takes both machines down |
| Limits.AnOverlap | internal/controller/updatetask_controller.go:201-237 | such tasks exist in a control plane of three machines |
| Progress.MeasureNeverRises | internal/controller/updatetask_controller.go:189-237 | twice the waiting machines plus the running node tasks never rises in any interleaving, and falls by one at each creation and at each completion in whatever terminal state |
| Membership.NodesBounded | internal/controller/updatetask_controller.go:217-237 | in every run from a fresh store, whatever machines leave, join or are handed over, only machines in scope at the start get node tasks, and there are never more node tasks than those |
| Progress.AdvancesBounded | internal/controller/updatetask_controller.go:217-241 | so any run from a fresh store with N machines in scope creates and completes at most 2N times for the task |
| Progress.ReconcileAtRest | internal/controller/updatetask_controller.go:217-241 | with nothing running or failed, the gate open and no call failing, a reconcile reports Updated or creates one node task for a waiting machine |
| Progress.RolloutEnds | internal/controller/updatetask_controller.go:338-341 | more such reconciles than machines waiting end in Updated, whatever runs of all actors that move no machine lie between them |
| Progress.FreshRolloutEnds | internal/controller/updatetask_controller.go:338-341 | from a fresh store with N machines in scope, N + 1 such reconciles are enough |
| Progress.NoDeadEnd | internal/controller/updatetask_controller.go:167-242 | from every undisturbed state completions and reconciles lead to Updated |
| Completion.UpdatedMeansDone | internal/controller/updatetask_controller.go:338-341 | in every state of every run from a fresh store, whatever machines leave, join or are handed over: a stored Updated means that every selected machine in scope has an Updated node task of the task |
| Completion.UpdatedMeansAllDone | internal/controller/updatetask_controller.go:338-341 | without machine or scope changes these are all the machines the rollout started with |
| Guarantees.UpdatedIsSound | internal/controller/updatetask_controller.go:337-347 | in every reachable state of a task that is not aborted, Updated is reported if and only if every node task of a selected machine is Updated and every selected machine in scope has one; node tasks of machines that are gone are ignored |
| Guarantees.FailedBlocks | internal/controller/updatetask_controller.go:193-198 | once a node task has failed, no run ever creates another node task for the task, with or without remediation |
| Completion.FailedIsNotUpdated | internal/controller/updatetask_controller.go:193-198 | and the task is never Updated while a machine without node task stays in its rollout |
| Limits.UpdatedDespiteFailure | internal/controller/updatetask_controller.go:337-347 | yet in every rollout that can start with a single machine in scope some run leads to a reconcile that saves Updated while the only node task has failed, or runs, its machine having left |
| Refinement.ReconcileIsRun | internal/controller/updatetask_controller.go:71-135 | every reconcile, whatever fails, is a run of protocol steps with no other actor in between |
| Refinement.ReconcileKeepsInv | internal/controller/updatetask_controller.go:71-135 | so every reconcile keeps the invariant of the protocol |
| MachineCondition.ConditionStep | internal/controller/updatetask_controller.go:301-314 | a step keeps "a machine in scope that is up to date has an Updated node task of its task" if and only if it is no late report and no stale annotation |
| MachineCondition.UpToDateIsExact | internal/controller/updatetask_controller.go:293-321 | so it is true throughout a run if and only if every report lands on a machine not handed on, or handed to a task that has updated it, and the handler annotates a machine that is up to date only if it has listed it so |
| MachineCondition.UpToDateIsTrue | internal/controller/updatetask_controller.go:293-321 | in particular throughout every run in which no annotation falls into a reconcile of the machine and no machine patch between the handler listing a machine and annotating it |
| MachineCondition.AtomicReconcileIsTrue | internal/controller/updatetask_controller.go:293-321 | in particular for reconciles taken as one step, whatever calls fail |
| MachineCondition.AtomicRequestIsTrue | internal/handlers/lifecycle/handlers.go:107-125 | and for requests to the handler taken as one step |
| Limits.AStart | internal/controller/updatetask_controller.go:201-237 | a rollout can start from a fresh store: one healthy machine of a kubeadm control plane, annotated for a fresh task |
| Limits.LateTrueHappens | internal/handlers/lifecycle/handlers.go:119-120 | a request between the snapshot of a reconcile and its report on a machine without condition makes it false |
| Limits.StaleListHappens | internal/handlers/lifecycle/handlers.go:109-122 | a whole reconcile between the handler listing a machine without condition and patching it does so too |
| Limits.FalseReports | internal/handlers/lifecycle/handlers.go:109-122 | both are reached by runs from every fresh store in which a rollout can start |
| Handlers.ExtensionHandlers.DoControlPlaneExternalUpdate | internal/handlers/lifecycle/handlers.go:69-163 | a request changes the server and answers as specified, with the error, panic and swallowed-error exits |
| Handlers.ExtensionHandlers.AbortSuperseded | internal/handlers/lifecycle/handlers.go:95-105 | the abort loop in any list order, with its failures and its nil dereference |
| Handlers.ExtensionHandlers.TakeMachinesOver | internal/handlers/lifecycle/handlers.go:107-162 | re-annotation, policy lookup and creation of the new task |
| Handlers.ExtensionHandlers.AnnotateMachines | internal/handlers/lifecycle/handlers.go:113-125 | the annotation loop, which stops early at the first failure and accepts after a failed patch |
| HandOver.AbortOldExact | internal/handlers/lifecycle/handlers.go:95-105 | only superseded tasks change, only in phase; a loop that is not stopped aborts every one |
| HandOver.AnnotateExact | internal/handlers/lifecycle/handlers.go:113-125 | only listed machines change; a loop that is not stopped takes over every one, and it accepts early only because a patch failed |
| HandlerLoops.AbortPrefix | internal/handlers/lifecycle/handlers.go:95-105 | the abort loop goes up to the first task without control plane (panic) or with a failing patch (rejected); of those before, exactly the tasks labelled with and for the cluster, of the control plane and in progress are in phase Abort |
| HandlerLoops.AnnotatePrefix | internal/handlers/lifecycle/handlers.go:113-125 | the annotation loop goes up to the first machine without patch helper (rejected), without annotations (panic) or with a failing patch (accepted); exactly those before carry the new name, keep their other annotations and lose their condition |
| HandOver.AcceptedExact | internal/handlers/lifecycle/handlers.go:95-162 | an accepted request has created its task if and only if no machine patch failed; superseded tasks are aborted, all others are unchanged |
| Requests.RejectedAtOnce | internal/handlers/lifecycle/handlers.go:73-93 | without cluster or control plane, for a cluster that is gone or being deleted, or if tasks cannot be listed, a request is rejected and changes nothing |
| Requests.RequestCreates | internal/handlers/lifecycle/handlers.go:127-160 | when a request creates its task, and the task field by field: name, cluster and label, control plane, machine spec, first policy as template, phase Update, nothing else set |
| Requests.RequestAccepted | internal/handlers/lifecycle/handlers.go:69-163 | a request is accepted exactly when it creates its task or stops at a machine whose patch fails |
| Requests.RequestAborts | internal/handlers/lifecycle/handlers.go:95-105 | in an accepted request exactly the tasks of the cluster and control plane in state InProgress go to phase Abort, and no other task changes |
| Requests.NewTaskStarts | internal/handlers/lifecycle/handlers.go:135-160 | a rollout of the created task can start exactly when the template of the policy exists, the gate is open and the cluster has a control-plane machine |
| Requests.LaterRequestSupersedes | internal/handlers/lifecycle/handlers.go:95-105 | after any run, once it is in progress a later accepted request for the same cluster and control plane aborts it |
| HandOver.TakenMachines | internal/handlers/lifecycle/handlers.go:107-125 | after the annotation loop every control-plane machine carries the new task's name and has lost its condition, and no other machine changed |
| HandOver.AcceptedWithoutTask | internal/handlers/lifecycle/handlers.go:122-123 | a concrete request that is accepted and changes nothing |
| HandOver.HandlerIsRun | internal/handlers/lifecycle/handlers.go:69-163 | every request, whatever fails, is a run of environment steps of the protocol |
| HandOver.HandedOver | internal/handlers/lifecycle/handlers.go:113-125 | once all control-plane machines carry the new name, no earlier task ever again gets a node task for one or patches one in a reconcile that starts later |
| HandOver.RequestHandsOver | internal/handlers/lifecycle/handlers.go:107-125 | end to end: after such a request that holds for every task stored before it |

## Left out

- Quorum.QuorumKept: takes the machines the gate reads as current; with machine reads that lag behind the store, a machine that has turned unhealthy can be missed, and nothing in the source rules that out.
- MachineCondition.UpToDateIsTrue: gives a sufficient condition on who waits for whom; the exact one is that of MachineCondition.UpToDateIsExact.
- HandOver.HandedOver: says nothing of reconciles already in flight when the handler runs; these may still create and patch.
- Progress.RolloutEnds: counts only reconciles that find the gate open, nothing failed or aborted and no failing call; that these occur is up to the machines, the providers and the API server.
- A snapshot spread over several reads, between which other actors write.
- Conditions of the update task itself, their messages and their summary, and all logging.
- Removal of deleted objects by the API server, its refusal of new finalizers on deleted objects, and garbage collection of node tasks by owner reference.
- An update task without cluster reference, which the source dereferences without a check; here every task has one.
- What a template contains besides labels, and the cluster label that the template library writes on its own.
- Splitting a patch into metadata, status and conditions, of which one may fail alone.
- Several namespaces, since every list call is restricted to one.
- The Docker node provider: it overwrites Failed with Updated and does not react to Abort; providers here are arbitrary within their contract.
- The other hooks of the handler and machine deployment requests, which are empty, and filtering of update policies, which is not implemented.
- Manager set-up, generated deep copies, manifests and the end-to-end harness.
