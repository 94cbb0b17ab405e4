# Workflow execution in Tinkerbell's tink: a verified model

This project models how tink executes a workflow and proves what every run keeps true. A validated
template becomes a list of actions; workers execute the actions and report on them; a server records
the reports. The repository has two servers: one keeps a row and an event log per workflow in
Postgres, the other keeps nested action statuses in a Kubernetes object that a controller creates and
times out.

## Layout

| file | content |
|---|---|
| `Nested.dfy` | flat positions and coordinates in a list of lists |
| `Types.dfy` | states, templates, actions, reports |
| `Validator.dfy` | template validation |
| `Sorting.dfy`, `Rendering.dfy`, `ActionList.dfy` | environment and volume merging, the flat action list on both backends, the worker map |
| `RowProtocol.dfy`, `DbServer.dfy` | the Postgres-backed server: row, event log, replay, stream of offers |
| `Discipline.dfy` | the shape of a log that workers produce |
| `WorkerLoop.dfy` | turn selection, retried reports, the action loop |
| `Fleet.dfy` | Postgres-backed server and any number of workers as a step system; what every run keeps |
| `TurnRuns.dfy`, `TurnWorlds.dfy` | the worker's loop and the step system are equivalent |
| `Stall.dfy`, `Completion.dfy` | states beyond recovery; from which states, and which, workflows can complete |
| `KubeStatus.dfy`, `KubeServer.dfy` | the scan for the current action; reports that change the status in place |
| `Controller.dfy`, `KubeRuns.dfy` | creation, timeout passes, and every run of reports and passes |
| `Simulation.dfy`, `KubeCompletion.dfy` | the two backends on the same reports; which workflows can reach SUCCESS on Kubernetes; failures and missing start times |
| `KubeFleet.dfy`, `KubeLogs.dfy` | Kubernetes-backed server, controller and any number of workers as a step system; exactly which logs it leaves |
| `KubeFinish.dfy` | from which states of that system a workflow can still reach SUCCESS |
| `WorkerIndex.dfy` | the field index by worker against a full scan |
| `DataTable.dfy` | the versioned workflow data |
| `Progress.dfy` | workflow state and progress percentage |

## Modelling assumptions

- Each RPC and each reconcile pass is one atomic step; a pass sees one instant. An attempt that returns
  an error had no effect; row update and event insert happen together. `Discipline.ResendLast` shows
  what happens without this: a result sent again is recorded twice.
- One process runs per worker id. It may crash and restart anywhere, its attempts may be lost, its
  stream may break off, and its context may be arbitrarily old when it acts on it. The number of
  retries is any integer; with less than one nothing is ever sent.
- An action status is one of the five enum values. A Dafny `string` is a Go string, one `char` per byte.
  Instants are integers in nanoseconds. Integers are unbounded.
- `execute` returns an arbitrary state and error. The image-reference parser, the lookup of a worker
  address and the clock are parameters. Templates arrive parsed and rendered.
- Index-out-of-range and nil failures of the Go code are outcomes of their own that change nothing.

## Where the code does less than it is meant to

The model follows the code. These consequences are proved, with their exact conditions:

- A row at SUCCESS beyond the first action is offered to nobody
  (`server/dbserver_worker_workflow.go:220`). A workflow can therefore complete iff all its actions
  after the first belong to one worker of the worker map (`Completion.CompletionExact`). Otherwise some
  run gets to the SUCCESS before the change of worker, and nothing that follows changes the workflow
  any more (`Completion.HandoffIsReached`).
- Also where one worker owns everything, a crash of that worker during or right after any action but
  the first and the last strands the workflow for good, restart or not (`Stall.CrashStrands`), and for
  every workflow that can complete and every such action a run leads to that crash
  (`Completion.CrashIsReached`). From which states it can still complete is
  `Completion.CompletableExact`.
- A worker that resumed a RUNNING action does not announce its next one
  (`cmd/tink-worker/worker/worker.go:343`). The Postgres-backed server refuses that action's result and
  the worker exits (`WorkerLoop.ContextTurnExact`); the log stays in order
  (`Fleet.EveryLogIsDisciplined`). The Kubernetes-backed server records it
  (`KubeLogs.UnannouncedIsRecorded`); which logs this leads to is `KubeLogs.LogsExact`.
- The Kubernetes server compares an index inside a task with an index over all tasks
  (`server/kubernetes_api_workflow.go:105`). Only actions of the first non-empty task can be reported
  on (`KubeRuns.LocationExact`), and SUCCESS is reachable iff exactly one task has actions
  (`KubeCompletion.SuccessReachableExactly`). Until the end of that first task the backends agree, and
  at the next report they part (`Simulation.BackendsAgree`, `Simulation.BackendsPart`).
- On Kubernetes, FAILED and TIMEOUT are not final (`KubeCompletion.FailureIsNotFinal`,
  `KubeCompletion.TimeoutIsNotFinal`, and exactly when in `KubeRuns.StillOpenExactly`), although the
  enum's documentation calls them so; only SUCCESS is. Among real workers a timeout by the controller
  is final iff no process is on the turn or can still get to it (`KubeFinish.SucceedExactly`).
- A RUNNING workflow can lack a start time, and the next pass then dereferences nil: if a client skips
  the first announcement (`KubeCompletion.StartTimeCanBeMissing`), and with fully disciplined workers
  if the first task is empty and a later one is not (`KubeCompletion.EmptyFirstTaskUntimed`; exactly
  then, by `KubeCompletion.StartTimeGuaranteedExactly`). Exactly when it has one is
  `KubeRuns.StartTimeExact`.
- Validation accepts templates without actions. The Postgres-backed server's stream breaks off iff the
  worker's map has such a workflow (`DbServer.Server.GetWorkflowContexts`, `WorkerLoop.CrashedExactly`);
  the Kubernetes-backed one hands it to the worker of the first task (`KubeFleet.EmptyWorkflowPanics`),
  and workers panic on exactly these (`KubeFleet.PanicsExactly`).
- Clients other than workers can take the completed count of a Postgres-backed workflow back
  (`Progress.CompletedCanFall`) and start it at the second action (`RowProtocol.FirstStartCanBeSecond`).

## Model

| member | source | states |
|---|---|---|
| `Validator.Validate` | workflow/template_validator.go:109-162 | accepts exactly the valid templates, and otherwise reports the first defect in the order of the checks |
| `Validator.ValidSpelledOut` | workflow/template_validator.go:109-175 | valid means: version 0.1, at least one task, names of 1 to 199 bytes, unique task names, unique action names per task, valid images |
| `Validator.FirstDefectUnique` | workflow/template_validator.go:109-162 | the template determines the reported error |
| `Validator.ValidIsWellNamed` | workflow/template_validator.go:125-160 | in the flat list of an accepted template the (task, action) pairs are non-empty and pairwise distinct |
| `Rendering.Render` | db/workflow.go:134-137 | one line per key of the map, each key once, in some order |
| `Rendering.RenderingExact` | db/workflow.go:134-137 | the lines of a map are key, separator and value of each of its keys |
| `Rendering.RenderingsMatch` | pkg/convert/workflow.go:99-113 | two renderings of one map have the same lines up to order |
| `Rendering.VolumeParts` | db/workflow.go:102-105 | the key of a volume is what precedes its first colon, and with a colon key and rest give the volume back |
| `Sorting.LeqExact` | pkg/convert/workflow.go:111 | lines are ordered by the first byte in which they differ, a prefix first |
| `Rendering.MergedVolumesExact` | db/workflow.go:139-152 | the emitted lines are exactly the input volumes that win their key, those of the action before those of its task and later before earlier; a volume without a colon gets one |
| `ActionList.InsertActionList` | db/workflow.go:91-190 | succeeds iff the template is valid and all workers are known; the list is in task-then-action order with merged environments and volumes; the worker map holds every worker id, the nil id only after another one |
| `ActionList.ListIsWellNamed` | db/workflow.go:97-168 | the list has the template's names, hence distinct pairs, and every owner with an id other than nil is in the worker map |
| `ActionList.NilWorkerIsNotMapped` | db/workflow.go:112-124 | a template whose tasks all belong to the worker with the nil UUID leaves the worker map empty |
| `ActionList.FromStatus` | pkg/convert/workflow.go:80-119 | the list served by the Kubernetes backend: flat order, concatenated volumes, overridden and sorted environments |
| `ActionList.ListIsDetermined` | pkg/convert/workflow.go:97-114 | a status determines the served list, although maps are visited in any order |
| `ActionList.ListsMatch` | pkg/convert/workflow.go:87-116 | for one template both backends serve its actions in order, field by field in the template's terms: the same environment lines up to order, the action's settings before its task's; volumes, worker and handlers as each backend has them |
| `RowProtocol.DecideExact` | server/dbserver_worker_workflow.go:93-116 | over any acceptable log the server accepts a report iff it names the action its RUNNING count points at |
| `RowProtocol.RepliesExactly` | server/dbserver_worker_workflow.go:69-110 | after any requests of any clients, the exact condition of each error, of the index failure and of acceptance, in terms of the log |
| `RowProtocol.ReplayExact` | server/dbserver_worker_workflow.go:93-126 | a log can be accepted event by event iff every event is consistent with the RUNNING count before it, and the row is then determined by that count and the last event |
| `RowProtocol.RowIsReplayOfLog` | server/dbserver_worker_workflow.go:104-126 | after any requests of any clients the row equals the replay of the event table, with index, names and worker of the list entry |
| `RowProtocol.StartedAtMostOnce` | server/dbserver_worker_workflow.go:93-116 | whatever requests any clients send, accepted RUNNING reports start pairwise different actions in list order without a gap; the first starts the first action, unless a result was accepted before it |
| `RowProtocol.FirstStartCanBeSecond` | server/dbserver_worker_workflow.go:93-103 | for every workflow with two actions, a client that reports a result first makes the first RUNNING one on the second action |
| `DbServer.Server.ReportActionStatus` | server/dbserver_worker_workflow.go:69-139 | the reply and the whole new table after a report, for unknown workflows, refusals, the index failure and acceptance |
| `DbServer.Server.GetWorkflowContexts` | server/dbserver_worker_workflow.go:17-34 | the stream holds exactly the applicable workflows of the worker map, each once, with their current rows; it breaks off iff the lookup in some workflow's action list is out of range |
| `WorkerLoop.OfferMatchesTurn` | server/dbserver_worker_workflow.go:207-235 | on every row any requests can bring about: offered iff the worker's own selection takes it and the row is not at SUCCESS beyond the first action; the selected action is its own and in range; no other worker is offered the workflow |
| `WorkerLoop.CrashedExactly` | server/dbserver_worker_workflow.go:207-231 | whatever requests came before, that lookup is out of range iff the workflow has no actions |
| `WorkerLoop.ReportActionStatus` | cmd/tink-worker/worker/worker.go:436-456 | a report is recorded once iff the server accepts it and some attempt gets through; the call fails iff retries were used up |
| `WorkerLoop.ActionLoop` | cmd/tink-worker/worker/worker.go:336-417 | from any stored workflow, with any number of retries, any lost attempts and any executions: the workflow and the ending of the specified turn |
| `WorkerLoop.ProcessContext` | cmd/tink-worker/worker/worker.go:279-417 | for any received context, current or not: not this worker's turn, an index out of range, or the turn of the action loop |
| `WorkerLoop.ContextTurnExact` | cmd/tink-worker/worker/worker.go:279-417 | over an orderly workflow, in any world: an announced turn adds exactly the reports that get through, RUNNING and result per own action; a resumed turn adds at most one event, and exits if the next action is its own; the log stays disciplined; only a workflow without actions panics |
| `WorkerLoop.ScriptIsPrefix` | cmd/tink-worker/worker/worker.go:443-455 | lost reports only cut the reports of a turn short |
| `WorkerLoop.TurnTells` | cmd/tink-worker/worker/worker.go:376-398 | every event a turn adds is RUNNING of its action, or SUCCESS for an execution that succeeded without error, TIMEOUT for one that timed out, FAILED for any other |
| `Discipline.DisciplinedIsConsistent` | server/dbserver_worker_workflow.go:93-116 | every disciplined log is acceptable to the server |
| `Discipline.DecideNext` | server/dbserver_worker_workflow.go:93-116 | over a disciplined log the next event is accepted, the result of an unannounced action is refused |
| `Discipline.ResendLast` | cmd/tink-worker/worker/worker.go:443-455 | sending the last accepted event again is refused for RUNNING and recorded a second time for a result |
| `Fleet.StepKeeps` | cmd/tink-worker/worker/worker.go:261-422 | every step of every process keeps: logs disciplined, rows those of the logs, streams up to date, and only the worker at turn holding a workflow |
| `Fleet.EveryLogIsDisciplined` | cmd/tink-worker/worker/worker.go:261-422 | in every run of server and workers each log is RUNNING(0), SUCCESS(0), RUNNING(1), ..., ended at most by one FAILED or TIMEOUT of the running action, and the row is its replay |
| `Fleet.HandoffBlocks` | server/dbserver_worker_workflow.go:216-225 | where the worker changes after the second action or later, no run gets past the SUCCESS before the change |
| `Stall.CrashStrands` | server/dbserver_worker_workflow.go:216-225 | after a crash of the worker at turn during or right after any action but the first and the last, whatever follows, at most the result of the running action is still recorded |
| `Stall.StallIsPermanent` | server/dbserver_worker_workflow.go:216-225 | a workflow at SUCCESS beyond the first action never changes again unless a process that announces its actions has it in hand; one that resumed and moved on does not count |
| `Stall.HandoffStalls` | server/dbserver_worker_workflow.go:216-225 | the SUCCESS before a change of worker beyond the second action is the last event ever, whatever steps follow |
| `TurnRuns.ReportRun` | cmd/tink-worker/worker/worker.go:436-456 | from every run, all attempts of a report, lost or refused or accepted, are steps of the process alone that lead to the same workflow and the same fate |
| `TurnRuns.ContextIsRun` | cmd/tink-worker/worker/worker.go:279-417 | whatever the loop does with a received context, in any world, the process reaches in the step system by its own steps alone, the ending included |
| `TurnWorlds.ContextHasWorld` | cmd/tink-worker/worker/worker.go:279-417 | conversely, whatever a process does undisturbed from the receipt of a context until it is back at its stream or gone is what the loop does in some world |
| `Completion.CompletionExact` | server/dbserver_worker_workflow.go:207-231 | some run completes a workflow iff all its actions after the first belong to one worker and the worker map covers the owners |
| `Completion.CompletableExact` | server/dbserver_worker_workflow.go:207-231 | from any reachable state some continuation completes a workflow iff its log is open, one worker owns all after the first action, the map covers the owners, and at most the first action is done, or the last is at least announced, or a process that announces its actions can still report |
| `Completion.CrashIsReached` | server/dbserver_worker_workflow.go:216-225 | for every workflow that can complete and every action but the first and the last, some run has that action running and can still complete, and after a crash of its worker cannot |
| `Completion.HandoffIsReached` | server/dbserver_worker_workflow.go:216-225 | for every workflow whose worker changes after the second action or later, some run gets to the SUCCESS before the change, and no continuation changes it |
| `KubeStatus.GetTaskActionInfo` | pkg/apis/core/v1alpha1/workflow_methods.go:47-91 | the nested scan reports the first action of the flat list that is not SUCCESS, its task and worker, and the total |
| `KubeStatus.ScanAgreesWithFlat` | pkg/apis/core/v1alpha1/workflow_methods.go:55-88 | index and total are those of the flat list, the entry carries the reported names, and index equals total iff all actions are SUCCESS |
| `KubeServer.Workflow.ModifyWorkflowState` | server/kubernetes_api_workflow.go:89-150 | the changed object and the error, for a missing task, a missing action, PENDING, and each other status |
| `KubeServer.Store.ReportActionStatus` | server/kubernetes_api_workflow.go:174-207 | the stored object changes iff the report is accepted; a copy that was changed before an error is dropped |
| `KubeServer.DecideExact` | server/kubernetes_api_workflow.go:101-149 | a report is accepted iff it names the current action, is not PENDING, and no action lies in an earlier task; it then marks that entry and no other |
| `KubeServer.RepliesExactly` | server/kubernetes_api_workflow.go:152-200 | the exact condition of each error and of acceptance |
| `KubeServer.ModifyFailsExactly` | server/kubernetes_api_workflow.go:101-148 | which of the three errors the in-place change gives, and when |
| `KubeServer.MarkExact` | server/kubernetes_api_workflow.go:120-148 | RUNNING sets the start, a result the whole seconds since the start; no other field of the action changes |
| `Controller.NewStatus` | pkg/convert/workflow.go:29-60 | the status created from a template: every task and action field by field, all PENDING, state PENDING |
| `Controller.ProcessRunningWorkflow` | pkg/controllers/workflow/controller.go:145-168 | the in-place pass fails iff there is no start time, and otherwise expires exactly the started running actions past their deadline |
| `Controller.ReconcileStored` | pkg/controllers/workflow/controller.go:39-75 | which of creation, timeout pass and nothing applies to a stored object, nothing if it is being deleted |
| `KubeRuns.PrefixInEveryRun` | server/kubernetes_api_workflow.go:89-207 | in every run the statuses are SUCCESS, then at most one of any status, then PENDING; completion stays within the first non-empty task, never goes back, and grows by at most one per accepted report |
| `KubeRuns.SuccessIsExactAndAbsorbing` | server/kubernetes_api_workflow.go:136-144 | in every run with an action the state is SUCCESS iff every action is, and then no step changes anything |
| `KubeRuns.TwoTasksNeverSucceed` | server/kubernetes_api_workflow.go:101-120 | if two tasks have actions no run completes |
| `KubeRuns.LocationExact` | server/kubernetes_api_workflow.go:101-120 | in every run a report on the current action is applied, to it alone, iff no action lies in an earlier task |
| `KubeRuns.StillOpenExactly` | server/kubernetes_api_workflow.go:122-135 | whatever the state, some report is still accepted, and can make it RUNNING, iff an action is left and lies in the first non-empty task |
| `KubeRuns.PassVerdict` | pkg/controllers/workflow/controller.go:145-163 | in every run a pass yields TIMEOUT iff more than the global timeout has passed since the first action's start or more than its timeout since the start of the current RUNNING action, and otherwise changes nothing |
| `KubeRuns.PassEffect` | pkg/controllers/workflow/controller.go:151-165 | in every run at most the current action changes, iff RUNNING and past its deadline: status, message and whole seconds, which reach its timeout; a second pass at that instant changes nothing |
| `KubeRuns.PassMonotone` | pkg/controllers/workflow/controller.go:147-156 | a later clock never takes a timeout back |
| `KubeRuns.StartTimeExact` | pkg/apis/core/v1alpha1/workflow_methods.go:27-34 | in every run the start time is defined iff a RUNNING report on the first action of the first task was accepted |
| `KubeRuns.StartTimeDefined` | pkg/controllers/workflow/controller.go:147-149 | if the first task has actions and the first accepted report is RUNNING, a RUNNING workflow has a start time; both conditions are shown to be needed |
| `KubeCompletion.StartTimeCanBeMissing` | pkg/controllers/workflow/controller.go:147-149 | for every template with two actions in its first task, skipping the first announcement leads to a RUNNING workflow without a start time |
| `KubeCompletion.EmptyFirstTaskUntimed` | pkg/apis/core/v1alpha1/workflow_methods.go:27-34 | for every template with an empty first task and an action later, one disciplined report leads to RUNNING without a start time |
| `KubeCompletion.StartTimeGuaranteedExactly` | pkg/controllers/workflow/controller.go:147-149 | every disciplined run in state RUNNING has a start time iff the first task has actions or no task has |
| `KubeCompletion.FailureIsNotFinal` | server/kubernetes_api_workflow.go:122-135 | for every template with an action, a run gets to FAILED, or TIMEOUT, by a report and back to RUNNING by another |
| `KubeCompletion.TimeoutIsNotFinal` | pkg/controllers/workflow/controller.go:145-149 | for every template whose first task has actions, a late pass times the workflow out and a report makes it RUNNING again |
| `KubeCompletion.DeadlineExact` | pkg/controllers/workflow/controller.go:145-163 | for every template whose first task has actions, announced at one instant: a pass times the workflow out iff the template's global timeout or the action's timeout is exceeded |
| `KubeCompletion.SecondsExact` | server/kubernetes_api_workflow.go:122-141 | for every template with an action, a result leaves the whole seconds since the announcement |
| `KubeCompletion.SuccessReachableExactly` | server/kubernetes_api_workflow.go:101-144 | some run brings a template's workflow to SUCCESS iff exactly one task has actions |
| `KubeCompletion.FleetLogOnKube` | server/kubernetes_api_workflow.go:174-207 | the log any Postgres-backed fleet leaves for a workflow with one working task is accepted throughout by the Kubernetes backend and leads to the same state and count |
| `KubeFleet.StepKeeps` | server/kubernetes_api_workflow.go:30-207 | every step of server, controller and workers keeps: logs in shape, statuses those of the logs, streams leading to the right turn, and only the worker at turn holding a workflow |
| `KubeFleet.EveryLogIsWorkerLog` | cmd/tink-worker/worker/worker.go:261-422 | in every run each log has per action RUNNING or not, then SUCCESS, RUNNING always for the first, possibly ended by one FAILED or TIMEOUT, only for the first non-empty task; its SUCCESS events are the completed actions |
| `KubeFleet.EmptyWorkflowPanics` | cmd/tink-worker/worker/worker.go:282-283 | a workflow without actions is offered to the worker of its first task, whose lookup of the first action is out of range |
| `KubeFleet.ContextExact` | server/kubernetes_api_workflow.go:18-28 | the context a worker gets names the first action that is not SUCCESS, with its task, worker, status and position, and the total |
| `KubeFleet.PanicsExactly` | cmd/tink-worker/worker/worker.go:282-300 | in every run a worker panics on a context it is offered iff the workflow has no actions |
| `KubeFleet.WorkersSetStartTime` | pkg/controllers/workflow/controller.go:147-149 | driven by real workers, a RUNNING workflow whose first task has actions has a start time |
| `KubeLogs.ServedMatches` | pkg/convert/workflow.go:80-119 | the list the server serves leads to the selection and the reports the step system uses |
| `KubeLogs.LogsExact` | server/kubernetes_api_workflow.go:101-149 | some run of server, controller and workers leaves a log behind iff it has that shape |
| `KubeLogs.DisciplinedExactly` | cmd/tink-worker/worker/worker.go:343-358 | such a log is one of Postgres-backed workers iff every result in it was announced |
| `KubeLogs.DisciplinedCanBeLeft` | server/kubernetes_api_workflow.go:101-149 | every log of Postgres-backed workers within the first working task can be left on Kubernetes too |
| `KubeLogs.UnannouncedIsRecorded` | cmd/tink-worker/worker/worker.go:343-358 | for every template with two actions in its first working task, a resumed worker's unannounced SUCCESS is recorded |
| `KubeFinish.LostForGood` | pkg/controllers/workflow/controller.go:59-66 | a workflow that failed, or was timed out with no process on its turn or able to get to it, stays so whatever steps follow |
| `KubeFinish.SucceedExactly` | server/kubernetes_api_workflow.go:30-46 | from any reachable state some continuation brings a created workflow to SUCCESS iff only one task has actions, it has not failed, and it is PENDING, RUNNING or SUCCESS, or a process is on its turn and can still report SUCCESS, or waits for it behind contexts it can work off |
| `Simulation.BackendsAgree` | server/dbserver_workflow.go:282-295 | up to the end of the first non-empty task both backends accept every disciplined sequence report by report and agree on workflow state, completed count, total and the open action's status |
| `Simulation.BackendsPart` | server/kubernetes_api_workflow.go:165-172 | the next disciplined report is accepted by Postgres and refused by Kubernetes |
| `WorkerIndex.IndexKeys` | pkg/controllers/manager.go:170-186 | the keys are the non-empty worker addresses of a RUNNING or PENDING object |
| `WorkerIndex.ListForWorker` | server/kubernetes_api_workflow.go:30-46 | index lookup and filter return exactly the PENDING or RUNNING workflows whose selected task belongs to the worker, without leaving the task list |
| `WorkerIndex.AssignedIsExclusive` | server/kubernetes_api_workflow.go:39-44 | a workflow is given to at most one worker id, the owner of the current action's task |
| `DataTable.Table.InsertIntoWfDataTable` | db/workflow.go:193-235 | the whole table after an insert |
| `DataTable.Table.GetFromWfDataTable` | db/workflow.go:238-266 | reads one version, 0 meaning the latest; NULL and missing rows read as empty |
| `DataTable.Table.GetWorkflowMetadata` | db/workflow.go:269-297 | reads the metadata of one version, 0 meaning the latest; a missing row reads as empty |
| `DataTable.Window` | db/workflow.go:193-235 | after any writes to any workflows each row has the version that counts its workflow's writes, its metadata, and its data iff it is among the last `maxVersions` versions (or that is negative) |
| `DataTable.VersionsExact` | db/workflow.go:651-665 | the versions of a workflow are exactly 1..n, once each |
| `DataTable.ReadBack` | db/workflow.go:238-297 | reading a version back gives the data written while it is in the window and nothing afterwards, and its metadata always |
| `DataTable.ReadMissing` | db/workflow.go:253-265 | a version never written reads as empty |
| `DataTable.ReadLatest` | db/workflow.go:240-246 | version 0 selects the row of version n |
| `Progress.PercentOfReachableRow` | cmd/tink-cli/cmd/workflow/state.go:52-66 | on every row any requests can bring about the percentage lies in 0..100 and is 100 iff the workflow state is SUCCESS |
| `Progress.PercentExact` | cmd/tink-cli/cmd/workflow/state.go:52-66 | on every row any requests can bring about the percentage is the completed share of the actions, rounded down |
| `Progress.WorkflowStateExact` | server/dbserver_workflow.go:282-295 | on every such row the workflow state is that of the last event, SUCCESS counting as RUNNING until the last action |
| `Progress.PercentNeverFalls` | cmd/tink-cli/cmd/workflow/state.go:52-66 | along a disciplined log the percentage never falls despite integer division |
| `Progress.CompletedFallsExactly` | server/dbserver_worker_workflow.go:111-115 | under any clients the completed count falls iff a SUCCESS is overwritten by something other than SUCCESS or the next RUNNING |
| `Progress.CompletedCanFall` | server/dbserver_worker_workflow.go:111-115 | for every workflow with an action, SUCCESS followed by FAILED takes the count back |

## Left out

- WorkerLoop.ActionLoop: as a method it runs on a server that nobody else uses meanwhile; crashes and other processes are in the step system of `Fleet.dfy`, and `TurnRuns.ContextIsRun` with `TurnWorlds.ContextHasWorld` show that the method's outcomes are the undisturbed runs of that system.
- WorkerLoop.ProcessContext: the endless polling loop around it is the interleaving of `Poll` and `Receive` steps in `Fleet.dfy`, not a method.
- Controller.ProcessRunningWorkflow: the clock is read once per pass; elapsed seconds are exact integers, without the rounding of a float64, and stored start times keep their nanoseconds.
- ActionList.FromStatus: sharing of backing arrays by `append` is sequence concatenation.
- Overflow of int32 versions, int64 indices and of durations multiplied by a second.
- Statuses outside the five enum values, and objects whose status was written by something other than the controller and the server.
- Seconds and messages of reports, and creation times of event rows: stored and shown only.
- Deletion and re-creation of workflows under the same id; update of templates.
- gRPC, HTTP, TLS, metrics, logging, command-line plumbing and generated code.
- Container management, image pulls and log capture; worker data files and their checksums.
- SQL text, JSON and YAML decoding, template rendering, image-reference parsing, MAC and IP parsing.
- Kubernetes client caching, conflict handling and merge patches: replaced by atomic steps.
- Hardware records and the deprecated watch calls.
