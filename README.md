# go-flow orchestration core in Dafny

go-flow is a small workflow engine written in Go, with a Next.js front end.
This project models:

- the engine's sequential decision logic;
- the configuration helpers;
- two pieces of front-end state.

It proves properties of each.

- **Registry and builder** (`registry.dfy`, module `Registry`).
  - Workflow definitions are stored by name. Each is an ordered list of task names with a function registered per name.
  - `Register` checks three things in order: an empty name, then no tasks, then a duplicate.
  - The fluent builder `NewWorkflow` / `AddTask` / `Build` / `MustBuild` sits on top. A panic is returned as its message.
- **Repository** (`port.dfy`, module `Port`). The MySQL repository becomes an in-memory store:
  - a workflow-instance table;
  - a task table with auto-increment ids from 1;
  - an append-only activity log.

  Writes the database could reject are named by a fixed set of faults. The class `Port.Repository` keeps the tables as fields. Each method is tied to a pure function on the `Store` value.
- **Worker step** (`worker.dfy`, `worker_properties.dfy`). Models `executeTask`, `handleTaskFailure`, `handleTaskSuccess` and `orchestrateNextStep`.
  - Each is a method of `Worker.WorkflowWorker`. It issues the same ordered repository writes as the Go code, proved equal to a pure function of the old store.
  - The task function's outcome is a parameter: success with an output payload, or an error.
  - The retry bound compares against `int32(maxRetries)`. The backoff is `time.Duration(1 << n) * time.Second`, with 64-bit wrap-around modelled.
  - The index search loop with its `break` is `Worker.FindStepIndex`.
  - The worker builder, with its defaults and setters, is `Worker.WorkBuilder`.
- **Service** (`service.dfy`, module `Service`).
  - `StartNewWorkflow` checks the definition before any write. It then creates the PENDING workflow and its PENDING first task.
  - The generated UUID and the marshalled input payload are parameters.
  - The query methods delegate to the registry and the repository.
- **Configuration** (`config.dfy`, module `Config`).
  - The environment is a map from name to value.
  - Covered: `getEnv`, `getEnvRequired`, `getEnvAsInt` (with `strconv.Atoi` in base ten, 64-bit `int`), `getEnvAsDuration` with the duration parser as a parameter, and `Load`.
  - Also the server address, the MySQL data source name, and the environment tests.
- **Workflow list page** (`list_page.dfy`, module `WorkflowListPage`).
  - The `workflows` / `loading` / `error` state of `page.tsx` is a class updated by the fetch callbacks and the Refresh and Dismiss buttons.
  - What the page shows is a pure function of that state: loading, the error screen (only for a truthy message) or the table.
  - Also modelled: the badge classification and the row fallbacks.
- **Error boundary** (`error_boundary.dfy`, module `ErrorBoundary`). The `{hasError, error}` state, `getDerivedStateFromError`, `handleReset` and the render choice.
- **Fixtures** (`scenarios.dfy`, module `Scenarios`).
  - The OrderProcess and RefundProcess registrations.
  - The states an order goes through, proved step by step: the service start and three worker steps.
  - A failing order step retried and then failed.
  - A definition that repeats a task name.

The list page fetches `/workflows` once, with no limit or offset, and has no detail poller. Its badges know only COMPLETED, FAILED and RUNNING, and everything else is gray.

`common.dfy` holds the shared `Option` / `Result` types. It also holds decimal rendering of integers (Go's `%d`, JavaScript's number to string) and its round trip.

## Model

| member | source | states |
|---|---|---|
| Text.NatDigits | config/config.go:69-71 | at least one digit, only digits, and no leading zero except for 0 itself |
| Text.DecimalShape | config/config.go:69-71 | a negative number is '-' and the digits of its magnitude; any other starts with a digit |
| Text.DigitsRoundTrip | config/config.go:69-71 | reading back the decimal digits `%d` writes for a natural number gives the number |
| Text.DecimalInjective | frontend/app/page.tsx:144 | two different integers never have the same decimal spelling (used for the fallback row keys) |
| Registry.Admit | internal/core/registry/workflow_builder.go:35-53 | empty name fails first, then no tasks, then a duplicate name; success exactly when none applies; success adds exactly `name -> def` and keeps every other entry |
| Registry.Lookup | internal/core/registry/workflow_builder.go:56-62 | found exactly when the name is registered, and then it is that definition |
| Registry.TaskFuncOf | internal/core/registry/workflow_builder.go:65-77 | found exactly when the workflow is registered and its function map has the task name |
| Registry.WorkflowRegistry.constructor | internal/core/registry/workflow_builder.go:28-32 | a new registry is empty |
| Registry.WorkflowRegistry.Register | internal/core/registry/workflow_builder.go:35-53 | returns the error `Admit` gives and leaves the definitions unchanged, or installs `Admit`'s map |
| Registry.WorkflowRegistry.GetDefinition | internal/core/registry/workflow_builder.go:56-62 | `(def, true)` exactly for a registered name |
| Registry.WorkflowRegistry.GetTaskFunc | internal/core/registry/workflow_builder.go:65-77 | `false` for an unregistered workflow, else whether the task name has a function |
| Registry.WorkflowRegistry.ListWorkflows | internal/core/registry/workflow_builder.go:80-90 | every registered name exactly once, as many names as definitions |
| Registry.WorkflowRegistry.NewWorkflow | internal/core/registry/workflow_builder.go:105-112 | a fresh builder for this registry with the name and no tasks |
| Registry.WorkflowBuilder.AddTask | internal/core/registry/workflow_builder.go:115-120 | appends the name (duplicates kept, order kept), binds or rebinds its function, returns the same builder |
| Registry.WorkflowBuilder.Build | internal/core/registry/workflow_builder.go:123-131 | registers exactly the accumulated `{name, taskNames, taskFuncs}` |
| Registry.WorkflowBuilder.MustBuild | internal/core/registry/workflow_builder.go:134-138 | panics exactly when `Build` fails, with "failed to build workflow: " and the error text |
| Registry.BuildTwiceFails | internal/core/registry/workflow_builder.go:46-48 | registering the same definition a second time fails as a duplicate |
| Registry.RegisteredIsFound | internal/core/registry/workflow_builder.go:50-62 | after a successful `Register`, `GetDefinition` returns the new definition and every other lookup is unchanged |
| Port.FindWorkflow | internal/adapters/driven/workflow_repo.go:113-122 | a row is found exactly when one has that primary key |
| Port.Reversed | internal/adapters/driven/workflow_repo.go:71-73 | the newest-first order of the rows |
| Port.PageOfWorkflows | internal/adapters/driven/workflow_repo.go:64-78 | negative limit or offset is an error; otherwise the page has `limit` rows, fewer only on the last page (what is left after `offset`, none past the end), newest first from `offset` |
| Port.TasksOf | internal/adapters/driven/workflow_repo.go:153-169 | exactly the task rows of that workflow, no other |
| Port.TasksOfCounts | internal/adapters/driven/workflow_repo.go:153-169 | each task row of the workflow is listed as often as it is stored |
| Port.TasksOfAscending | internal/adapters/driven/workflow_repo.go:162-163 | rows stored by ascending id are listed by ascending id |
| Port.TasksListedById | internal/adapters/driven/workflow_repo.go:162-163 | in a store with sequential task ids, a workflow's tasks come out in ascending id order |
| Port.TasksOfAppend | internal/adapters/driven/workflow_repo.go:153-169 | listing distributes over concatenation: rows keep their stored order |
| Port.LogsOf | internal/adapters/driven/workflow_repo.go:185-201 | exactly the log rows of that workflow, no other |
| Port.LogsOfCounts | internal/adapters/driven/workflow_repo.go:185-201 | each log entry of the workflow is listed as often as it is stored |
| Port.LogsOfAppend | internal/adapters/driven/workflow_repo.go:194-195 | listing distributes over concatenation: older entries come first |
| Port.AppendedLogListedLast | internal/adapters/driven/workflow_repo.go:171-201 | the entry appended last is listed last among its workflow's entries |
| Port.CountMatchesFullPage | internal/adapters/driven/workflow_repo.go:64-97 | a page as long as the count, from offset 0, holds every workflow row |
| Port.Repository.constructor | internal/adapters/driven/workflow_repo.go:17-19 | an empty store with the given rejected writes |
| Port.Repository.CreateWorkflow | internal/adapters/driven/workflow_repo.go:21-33 | the insert as `InsertWorkflow` states: rejected on a fault or a duplicate id, else appended |
| Port.Repository.CreateTask | internal/adapters/driven/workflow_repo.go:34-46 | the insert as `InsertTask` states: rejected on a fault, else a row appended with the next auto-increment id, the caller's workflow, name, status and input, and no retry count or output |
| Port.Repository.UpdateWorkflowStatus | internal/adapters/driven/workflow_repo.go:99-111 | every row with that id gets the status, nothing else changes |
| Port.Repository.UpdateTaskStatus | internal/adapters/driven/workflow_repo.go:139-151 | every task row with that id gets the status, nothing else changes |
| Port.Repository.UpdateTaskRetryCount | internal/adapters/driven/workflow_repo.go:203-215 | rejected on a fault with nothing changed, else the retry count of that task is set |
| Port.Repository.CreateActivityLog | internal/adapters/driven/workflow_repo.go:171-183 | appends one log entry |
| Port.Repository.CountWorkflows | internal/adapters/driven/workflow_repo.go:80-97 | the number of workflow rows |
| Port.Repository.GetWorkflowByID | internal/adapters/driven/workflow_repo.go:113-122 | found exactly when a row has that id, and it is that row |
| Port.Repository.ListWorkflows | internal/adapters/driven/workflow_repo.go:64-78 | the contract of `PageOfWorkflows` on the current rows: error exactly for a negative bound, the exact page length, newest first from `offset` |
| Port.Repository.GetTasksByWorkflowID | internal/adapters/driven/workflow_repo.go:153-169 | `TasksOf` the current table: the workflow's rows, each as often as stored, in stored (ascending id) order |
| Port.Repository.GetActivityLogsByWorkflowID | internal/adapters/driven/workflow_repo.go:185-201 | `LogsOf` the current log: the workflow's entries, each as often as stored, oldest first |
| Worker.Int32 | internal/core/worker/workflow_worker.go:233 | `int32(x)` lies in range, is `x` inside it, and always agrees with `x` modulo 2^32 (the low 32 bits) |
| Worker.Int64 | internal/core/worker/workflow_worker.go:274 | the `int64` result lies in range, is `x` inside it, and always agrees with `x` modulo 2^64 (the low 64 bits) |
| Worker.StartStatus | internal/core/worker/workflow_worker.go:89-94 | RETRYING exactly when the retry count is above 0, IN_PROGRESS otherwise |
| Worker.Started | internal/core/worker/workflow_worker.go:75-119 | the start status is written to the task's row and TASK_STARTED is appended, a nil retry count read as 0 |
| Worker.FailureHandled | internal/core/worker/workflow_worker.go:231-308 | at or above `int32(maxRetries)`: the task's rows become FAILED with every other field kept, TASK_FAILED appended, workflow FAILED; below it with the retry-count write rejected: nothing written; otherwise retry count + 1 (still within the bound), TASK_RETRY with backoff 2^(n) s appended, task PENDING, workflows unchanged |
| Worker.StepIndex | internal/core/worker/workflow_worker.go:170-177 | the first position of the name, or -1 exactly when absent |
| Worker.FindStepIndex | internal/core/worker/workflow_worker.go:170-177 | the search loop with `break` returns `StepIndex` |
| Worker.NextStepOrchestrated | internal/core/worker/workflow_worker.go:156-228 | missing workflow or definition: nothing written; a next step: exactly one PENDING task for `TaskNames[i+1]` whose input is the current output, workflows and logs unchanged (nothing if the insert is rejected); last step or unknown name: workflow COMPLETED and WORKFLOW_COMPLETED with `len(TaskNames)`; existing rows never change |
| Worker.SuccessHandled | internal/core/worker/workflow_worker.go:311-341 | task COMPLETED and TASK_COMPLETED appended, then orchestration: with a next step, one PENDING task for it carrying the output (none if the insert is rejected); after the last step, the workflow COMPLETED and WORKFLOW_COMPLETED logged after TASK_COMPLETED; without workflow or definition nothing more |
| Worker.TaskExecuted | internal/core/worker/workflow_worker.go:75-154 | TASK_STARTED comes first; without a workflow, a task function or a success the step is `FailureHandled` of the started store, the task never becomes COMPLETED and no TASK_COMPLETED is logged; on success it is `SuccessHandled` of the started store with the task's output, COMPLETED with TASK_COMPLETED right after TASK_STARTED |
| Worker.WorkflowWorker.ExecuteTask | internal/core/worker/workflow_worker.go:75-154 | the writes of `executeTask` produce `TaskExecuted` of the old store |
| Worker.WorkflowWorker.HandleTaskFailure | internal/core/worker/workflow_worker.go:231-308 | the writes of `handleTaskFailure` produce `FailureHandled` of the old store |
| Worker.WorkflowWorker.HandleTaskSuccess | internal/core/worker/workflow_worker.go:311-341 | the writes of `handleTaskSuccess` produce `SuccessHandled` of the old store |
| Worker.WorkflowWorker.OrchestrateNextStep | internal/core/worker/workflow_worker.go:156-228 | the writes of `orchestrateNextStep` produce `NextStepOrchestrated` of the old store |
| Worker.WorkBuilder.constructor | internal/core/worker/workflow_worker.go:358-367 | defaults: poll 5 s, batch 10, timeout 30 s, 3 retries |
| Worker.WorkBuilder.WithPollInterval | internal/core/worker/workflow_worker.go:370-374 | sets only the poll interval, returns the same builder |
| Worker.WorkBuilder.WithBatchSize | internal/core/worker/workflow_worker.go:377-381 | sets only the batch size, returns the same builder |
| Worker.WorkBuilder.WithTaskTimeout | internal/core/worker/workflow_worker.go:384-388 | sets only the task timeout, returns the same builder |
| Worker.WorkBuilder.WithMaxRetries | internal/core/worker/workflow_worker.go:391-395 | sets only the retry limit, returns the same builder |
| Worker.WorkBuilder.Build | internal/core/worker/workflow_worker.go:398-407 | a fresh worker with every field copied unchanged |
| WorkerProperties.HasNextStepIff | internal/core/worker/workflow_worker.go:171-180 | there is a next step exactly when the name occurs before the last position |
| WorkerProperties.UnknownTaskCompletesWorkflow | internal/core/worker/workflow_worker.go:180-226 | a task name the definition does not list completes the workflow |
| WorkerProperties.RepeatedNameQueuesStepAfterFirst | internal/core/worker/workflow_worker.go:171-183 | a name repeated at positions i < j is decided by its first position, at most i, never by j |
| WorkerProperties.OrchestrationKeepsRetries | internal/core/worker/workflow_worker.go:186-191 | orchestration never raises a stored retry count |
| WorkerProperties.ExecutionKeepsRetriesWithinMax | internal/core/worker/workflow_worker.go:231-271 | one worker step keeps every stored retry count at most `int32(maxRetries)` |
| WorkerProperties.FailedStepOutcome | internal/core/worker/workflow_worker.go:118-136 | a step that does not succeed logs TASK_STARTED then TASK_FAILED and fails the task and workflow at the limit; below it logs TASK_STARTED then TASK_RETRY and leaves the task PENDING with the next retry count |
| WorkerProperties.ExecutionKeepsStoreValid | internal/core/worker/workflow_worker.go:75-154 | one worker step keeps workflow ids unique and task ids sequential |
| WorkerProperties.SuccessKeepsStoreValid | internal/core/worker/workflow_worker.go:311-341 | the success handler, including the next-step insert, keeps workflow ids unique and task ids sequential |
| WorkerProperties.FailureKeepsStoreValid | internal/core/worker/workflow_worker.go:231-308 | the failure handler, on each of its three paths, keeps workflow ids unique and task ids sequential |
| WorkerProperties.SetTaskStatusKeepsRetries | internal/adapters/driven/workflow_repo.go:139-151 | a task-status update keeps every retry count within the bound |
| WorkerProperties.SetTaskStatusKeepsValid | internal/adapters/driven/workflow_repo.go:139-151 | a task-status update keeps workflow ids unique and task ids sequential |
| WorkerProperties.SetWorkflowStatusKeepsValid | internal/adapters/driven/workflow_repo.go:99-111 | a workflow-status update keeps workflow ids unique and task ids sequential |
| WorkerProperties.Pow2Monotone | internal/core/worker/workflow_worker.go:274 | a larger shift never gives a smaller power of two |
| WorkerProperties.Pow2Values | internal/core/worker/workflow_worker.go:274 | the powers of two at 33, 34 and 64, where the 64-bit duration stops fitting |
| WorkerProperties.Pow2Add | internal/core/worker/workflow_worker.go:274 | `2^(a+b) = 2^a * 2^b` for the shift |
| Worker.Backoff | internal/core/worker/workflow_worker.go:273-274 | an `int64` duration: 0 for a negative shift, otherwise 2^n seconds modulo 2^64 |
| WorkerProperties.BackoffExact | internal/core/worker/workflow_worker.go:273-274 | up to retry 33 the delay is exactly 2^n seconds |
| WorkerProperties.DefaultBackoffs | internal/core/worker/workflow_worker.go:273-274 | with the default 3 retries the delays are 2 s, 4 s, 8 s |
| WorkerProperties.BackoffWraps | internal/core/worker/workflow_worker.go:274 | from retry 34 the duration overflows: negative at 34, zero at 64 |
| Service.WorkflowStarted | internal/core/service/workflow_service.go:30-68 | unknown name or no tasks: "unknown workflow" and nothing written; success exactly when both inserts are accepted, with one PENDING workflow of that name and id and one PENDING task `TaskNames[0]` for it whose input is the workflow's input; a rejected workflow insert writes nothing; a rejected task insert leaves only the workflow |
| Service.WorkflowService.StartNewWorkflow | internal/core/service/workflow_service.go:30-68 | the writes and result are those of `WorkflowStarted` |
| Service.WorkflowService.ListAvailableWorkflows | internal/core/service/workflow_service.go:26-28 | the registry's names, each once |
| Service.WorkflowService.ListWorkflows | internal/core/service/workflow_service.go:70-72 | the repository's page: error exactly for a negative bound, the exact page length, newest first from `offset` |
| Service.WorkflowService.CountWorkflows | internal/core/service/workflow_service.go:74-76 | the repository's row count |
| Service.WorkflowService.GetWorkflowByID | internal/core/service/workflow_service.go:78-80 | the repository's row with that id |
| Service.WorkflowService.GetTasksByWorkflowID | internal/core/service/workflow_service.go:81-83 | `TasksOf` the repository's table: the workflow's rows, each as often as stored, in ascending id order |
| Service.WorkflowService.GetActivityLogsByWorkflowID | internal/core/service/workflow_service.go:85-87 | `LogsOf` the repository's log: the workflow's entries, each as often as stored, oldest first |
| Service.StartKeepsValid | internal/core/service/workflow_service.go:59-65 | starting a workflow keeps workflow ids unique and task ids sequential |
| Service.StartedWorkflowHasOnlyFirstTask | internal/core/service/workflow_service.go:49-65 | after a successful start the new workflow is found by id and has exactly one task, its first step |
| Service.RejectedFirstTaskLeavesOrphan | internal/core/service/workflow_service.go:59-65 | when the first task is rejected the PENDING workflow stays, with no task |
| Config.GetEnv | config/config.go:81-87 | the value when set and non-empty, else the default |
| Config.GetEnvRequired | config/config.go:89-95 | fails exactly when the variable is unset or empty, with "Environment variable KEY is required" |
| Config.Atoi | config/config.go:103 | a result only for sign-then-digits text, always within 64-bit range, and then the signed value of the digits; with AtoiAcceptsInRange and AtoiRejectsOutOfRange, such text parses exactly when its value fits in 64 bits |
| Config.GetEnvAsInt | config/config.go:97-109 | the default when unset, empty, not an integer or outside 64 bits, else the parsed value |
| Config.GetEnvAsDuration | config/config.go:111-123 | the default when unset or empty or unparsable, else the parsed duration |
| Config.Load | config/config.go:34-57 | never sets the environment name |
| Config.GetServerAddress | config/config.go:69-71 | host, ':' and then the port in decimal |
| Config.GetDatabaseConnectionString | config/config.go:59-67 | `user:pass@tcp(host:` then the port, `)/`, the database and the fixed options |
| Config.AtoiPlusSign | config/config.go:103 | a '+' before digits is accepted and changes nothing |
| Config.AtoiLeadingZero | config/config.go:103 | leading zeros after any sign are accepted and change nothing |
| Config.AtoiAcceptsInRange | config/config.go:103 | sign-then-digits text whose value fits in 64 bits parses to that value |
| Config.AtoiRejectsOutOfRange | config/config.go:103 | sign-then-digits text whose value does not fit in 64 bits gives no result, as Go's range error |
| Config.AtoiExplicitPlus | config/config.go:103 | "+5" reads as 5 |
| Config.AtoiLeadingZeros | config/config.go:103 | "007" reads as 7 |
| Config.AtoiDecimal | config/config.go:103 | `Atoi` reads back every 64-bit integer written in decimal |
| Config.GetEnvAsIntReadsDecimal | config/config.go:97-109 | a variable holding a decimal integer is read back whatever the default |
| Config.GetEnvAsIntFallsBack | config/config.go:103-106 | a non-integer value gives the default |
| Config.GetEnvAsIntOutOfRange | config/config.go:103-106 | a `%d` spelling of a value outside 64 bits gives the default |
| Config.GetEnvAsIntOverflowFallsBack | config/config.go:103-106 | "9223372036854775808", one past the largest 64-bit integer, gives the default |
| Config.LoadDefaults | config/config.go:39-54 | an empty environment gives localhost:3306, root, "password", "", 25/25, 5 min, localhost:8080 |
| Config.IsDevelopment | config/config.go:73-75 | true exactly for the environment name "development" |
| Config.IsProduction | config/config.go:77-79 | true exactly for the environment name "production" |
| Config.AtMostOneEnvironment | config/config.go:73-79 | no configuration is both development and production |
| Config.LoadedIsNeitherDevelopmentNorProduction | config/config.go:39-79 | a loaded configuration is neither development nor production |
| Config.ServerAddressCarriesPort | config/config.go:50-71 | `SERVER_PORT` is the port, and the address carries it after the host and ':' |
| Config.DefaultServerAddress | config/config.go:50-71 | with nothing set the address is "localhost:8080" |
| WorkflowListPage.InitialFetchSettled | frontend/app/page.tsx:20-38 | loading ends; a non-2xx status becomes "HTTP error! status: <code>"; a rejection records its message; a 2xx body is read |
| WorkflowListPage.RefreshStarted | frontend/app/page.tsx:88-89 | loading is set first, nothing else changes |
| WorkflowListPage.RefreshSettled | frontend/app/page.tsx:90-99 | loading ends; the body is read whatever the status |
| WorkflowListPage.Dismissed | frontend/app/page.tsx:76-79 | only the error is cleared |
| WorkflowListPage.HomePage.constructor | frontend/app/page.tsx:16-18 | no workflows, loading, no error |
| WorkflowListPage.HomePage.InitialFetchDone | frontend/app/page.tsx:20-38 | the callbacks of the mount-time fetch make `InitialFetchSettled` |
| WorkflowListPage.HomePage.RefreshData | frontend/app/page.tsx:88-89 | makes `RefreshStarted` |
| WorkflowListPage.HomePage.RefreshDone | frontend/app/page.tsx:90-99 | the callbacks of the refresh make `RefreshSettled` |
| WorkflowListPage.HomePage.Dismiss | frontend/app/page.tsx:77 | makes `Dismissed` |
| WorkflowListPage.BadgeFor | frontend/app/page.tsx:151-159 | green exactly for COMPLETED, red exactly for FAILED, yellow exactly for RUNNING, gray for everything else |
| WorkflowListPage.Rows | frontend/app/page.tsx:136-176 | one "No workflows found" row for an empty list; otherwise one row per workflow in order, with key the id or `workflow-<index>`, "N/A" for a missing id or name, "UNKNOWN" for a missing status, and the link to the detail page |
| WorkflowListPage.ViewOf | frontend/app/page.tsx:40-102 | loading screen exactly while loading; error screen exactly for a non-empty error; the table otherwise |
| WorkflowListPage.RowKeysDistinct | frontend/app/page.tsx:143-144 | row keys are distinct when the non-empty ids are and none looks like a fallback key |
| WorkflowListPage.ErrorStatusHandledOnlyInitially | frontend/app/page.tsx:22-27 | an error status shows the error screen on the first load but the table after a refresh |
| WorkflowListPage.EmptyErrorMessageShowsTable | frontend/app/page.tsx:33-37 | a rejection with an empty message shows the table, not the error screen |
| WorkflowListPage.FirstLoadShowsRows | frontend/app/page.tsx:28-32 | a successful first load shows the rows of `data.workflows`, or the empty row |
| WorkflowListPage.DismissAfterFailedLoad | frontend/app/page.tsx:77 | dismissing a failed first load shows the empty table |
| WorkflowListPage.EngineStatusesNeverYellow | frontend/app/page.tsx:151-159 | the statuses the engine writes map to gray, green and red, never yellow |
| ErrorBoundary.DerivedStateFromError | frontend/app/components/ErrorBoundary.tsx:21-23 | `hasError` with exactly the thrown value, whatever the state before |
| ErrorBoundary.Render | frontend/app/components/ErrorBoundary.tsx:34-72 | the children unchanged exactly when there is no error; the fallback shows a message exactly when the error is non-null |
| ErrorBoundary.Boundary.constructor | frontend/app/components/ErrorBoundary.tsx:16-19 | starts without an error |
| ErrorBoundary.Boundary.Capture | frontend/app/components/ErrorBoundary.tsx:21-23 | the state becomes the derived one |
| ErrorBoundary.Boundary.HandleReset | frontend/app/components/ErrorBoundary.tsx:29-31 | the state is cleared |
| ErrorBoundary.CaptureThenReset | frontend/app/components/ErrorBoundary.tsx:21-72 | after a capture the fallback shows; after a reset the children show |
| Scenarios.RegisterOrderProcess | internal/workflows/order/workflow.go:8-14 | a registry without OrderProcess gains its three steps; one with it panics as a duplicate |
| Scenarios.RegisterRefundProcess | internal/workflows/refund/workflow.go:8-14 | the same for RefundProcess |
| Scenarios.OrderStepsFollowEachOther | internal/core/worker/workflow_worker.go:170-203 | ValidateOrder queues DeductMoney, DeductMoney queues SendEmail, SendEmail completes with 3 tasks |
| Scenarios.RepeatedNameCycles | internal/core/worker/workflow_worker.go:171-183 | with steps A, B, A, finishing the second A queues B again |
| Scenarios.OrderStarts | internal/core/service/workflow_service.go:30-68 | starting an order writes the workflow and task 1 |
| Scenarios.OrderFirstStep | internal/core/worker/workflow_worker.go:311-341 | task 1 completes and task 2 takes its output as input |
| Scenarios.OrderSecondStep | internal/core/worker/workflow_worker.go:311-341 | task 2 completes and task 3 takes its output as input |
| Scenarios.OrderLastStep | internal/core/worker/workflow_worker.go:200-226 | task 3 completes and the order is COMPLETED with total 3 |
| Scenarios.OrderFailsAfterThreeRetries | internal/core/worker/workflow_worker.go:231-308 | the first failure queues a retry with count 1 and a 2 s backoff; a failure at count 3 fails the task and the order |

## Left out

- The worker's ticker loop, the goroutine fan-out and `WaitGroup` in `processBatch`, the `time.Sleep` of the backoff and the task timeout context: concurrency and timing. The model is one sequential step of a task. The backoff is modelled as the value logged.
- `GetTaskPending` and `GetWorkflowPending`: they only feed the polling loop. The task a step works on is a parameter.
- The registry's `sync.RWMutex`: the model is single-threaded.
- The SQL adapter and MySQL itself. They are replaced by the in-memory store.
  - Which writes fail is fixed by `faults`. Status updates and log appends always succeed, since the worker ignores their errors.
  - The task insert writes no retry count or output, so a new row has `None` for both; the columns' defaults are not part of this model.
  - `created_at` is not stored; creation order stands for it.
- JSON: activity-log details are the event type and its key fields. Payloads are opaque strings.
  - The early return of `executeTask` when marshalling its details fails is not modelled, since marshalling that map cannot fail.
  - `json.Marshal` of the start request's input is the `input` parameter.
- Task functions: only their outcome is modelled, as success with an output payload or an error. A Go task function receives `*model.Tasks` and could change other fields of the task before `handleTaskSuccess` sees it; the model lets it change only the output payload.
- `uuid.New()` is the `newId` parameter of `StartNewWorkflow`.
- `Service.StartError`: a rejected insert is the single error `WriteRejected`; the database's own error values are not modelled.
- Aliasing: in Go, `Build` shares the builder's slice and map with the registered definition. A later `AddTask` on the same builder adds its function to the shared `taskFuncs` map, which the registered definition then sees. The appended name does not show, because the registered slice keeps its length. The model copies values, so neither shows.
- `godotenv.Load` and the process environment (the map parameter stands for it). `time.ParseDuration` is the `parseDuration` parameter.
- `Config.Load` returns no error, as the Go function always returns a nil one.
- Front end:
  - markup and styling;
  - `console` output;
  - `window.location.reload()` for "Try Again" and "Reload Page", and the navigation in `handleReset`;
  - `componentDidCatch` (logging only);
  - `toLocaleString` of the creation time, which the row keeps raw;
  - the detail page `frontend/app/workflows/[id]/page.tsx`.
- `WorkflowListPage.Workflow`: an absent field and an empty one are both the empty string. The cells only test them for truthiness or compare them with fixed statuses. The details link differs: for an absent ID the page renders `/workflows/undefined`, where the model's row has `/workflows/`.
- `Port.PageOfWorkflows`: the query at workflow_repo.go:64-78 passes a negative limit or offset to the query builder unchecked. What the builder and the database then do is not modelled; the model chooses to return `NegativeBound` for it.
- `WorkflowListPage.RefreshData` has no precondition that the table is showing, although the Refresh button only exists in that view.
- The engine bootstrap in `cmd/main.go`, the HTTP handlers, the logger and the database pool setup are not part of this model.
