/**
 * One sequential step of the workflow worker: start a task, run its
 * (caller-supplied) result through failure or success handling, and on
 * success either queue the next task of the definition or complete the
 * workflow. Also the worker builder with its defaults.
 */
module Worker {
  import opened Common
  import opened Port
  import opened Registry

  /** `time.Duration` counts nanoseconds. */
  const Second: int := 1_000_000_000

  /** Go's conversion of an integer to `int32`: keep the low 32 bits, two's complement. */
  function Int32(x: int): (r: int)
    ensures -0x8000_0000 <= r < 0x8000_0000
    ensures -0x8000_0000 <= x < 0x8000_0000 ==> r == x
    ensures (x - r) % 0x1_0000_0000 == 0
  {
    var m := x % 0x1_0000_0000;
    if m >= 0x8000_0000 then m - 0x1_0000_0000 else m
  }

  /** Go's `int64` arithmetic result: keep the low 64 bits, two's complement. */
  function Int64(x: int): (r: int)
    ensures -0x8000_0000_0000_0000 <= r < 0x8000_0000_0000_0000
    ensures -0x8000_0000_0000_0000 <= x < 0x8000_0000_0000_0000 ==> r == x
    ensures (x - r) % 0x1_0000_0000_0000_0000 == 0
  {
    var m := x % 0x1_0000_0000_0000_0000;
    if m >= 0x8000_0000_0000_0000 then m - 0x1_0000_0000_0000_0000 else m
  }

  function Pow2(n: nat): nat {
    if n == 0 then 1 else 2 * Pow2(n - 1)
  }

  /**
   * `time.Duration(1 << uint(n)) * time.Second`. A negative `n` becomes a
   * shift count of at least 64, which gives 0.
   */
  function Backoff(n: int): (r: int)
    ensures -0x8000_0000_0000_0000 <= r < 0x8000_0000_0000_0000
    ensures n < 0 ==> r == 0
    ensures n >= 0 ==> (Pow2(n) * Second - r) % 0x1_0000_0000_0000_0000 == 0
  {
    if n < 0 then 0
    else
      var shifted := Int64(Pow2(n));
      var r := Int64(shifted * Second);
      ScaledWrap(Pow2(n), shifted, r);
      r
  }

  /** Wrapping before scaling by a second and wrapping again agrees with one wrap of the product. */
  lemma ScaledWrap(p: int, a: int, r: int)
    requires (p - a) % 0x1_0000_0000_0000_0000 == 0
    requires (a * Second - r) % 0x1_0000_0000_0000_0000 == 0
    ensures (p * Second - r) % 0x1_0000_0000_0000_0000 == 0
  {
    var m := 0x1_0000_0000_0000_0000;
    var k1 := (p - a) / m;
    var k2 := (a * Second - r) / m;
    assert p - a == k1 * m;
    assert a * Second - r == k2 * m;
    assert p * Second - r == (k1 * Second + k2) * m;
  }

  /** A nil retry count reads as 0. */
  function RetryCountOf(t: Task): int {
    t.retryCount.GetOr(0)
  }

  /** The status a task is given when a worker picks it up. */
  function StartStatus(retryCount: int): (st: TaskStatus)
    ensures st == Retrying <==> retryCount > 0
    ensures st == InProgress <==> retryCount <= 0
  {
    if retryCount > 0 then Retrying else InProgress
  }

  /** What the task function did: returned nil with this output payload, or returned an error. */
  datatype TaskResult = Succeeded(output: Option<string>) | Errored

  function LogFor(task: Task, event: Event): ActivityLog {
    ActivityLog(task.workflowInstanceId, Some(task.taskName), event)
  }

  /**
   * `handleTaskFailure`: out of retries, the task and its workflow fail;
   * otherwise the retry count goes up by one and the task is queued again,
   * unless writing the retry count fails, in which case nothing is written.
   */
  function FailureHandled(s: Store, task: Task, retryCount: int, maxRetries: int): (r: Store)
    ensures |r.tasks| == |s.tasks| && r.faults == s.faults
    ensures forall i :: 0 <= i < |s.tasks| && s.tasks[i].id != task.id ==> r.tasks[i] == s.tasks[i]
    ensures retryCount >= Int32(maxRetries) ==>
              && r.logs == s.logs + [LogFor(task, TaskFailed(task.id, retryCount))]
              && (forall i :: 0 <= i < |s.tasks| && s.tasks[i].id == task.id ==>
                    r.tasks[i] == s.tasks[i].(status := Failed))
              && |r.workflows| == |s.workflows|
              && (forall i :: 0 <= i < |s.workflows| ==>
                    r.workflows[i] == if s.workflows[i].id == task.workflowInstanceId
                                      then s.workflows[i].(status := WorkflowFailed) else s.workflows[i])
    ensures retryCount < Int32(maxRetries) && RetryCountFault in s.faults ==> r == s
    ensures retryCount < Int32(maxRetries) && RetryCountFault !in s.faults ==>
              && retryCount + 1 <= Int32(maxRetries)
              && r.logs == s.logs + [LogFor(task, TaskRetry(task.id, retryCount + 1, Backoff(retryCount + 1)))]
              && (forall i :: 0 <= i < |s.tasks| && s.tasks[i].id == task.id ==>
                    r.tasks[i] == s.tasks[i].(status := Pending, retryCount := Some(retryCount + 1)))
              && r.workflows == s.workflows
  {
    if retryCount >= Int32(maxRetries) then
      var failed := AppendLog(SetTaskStatus(s, task.id, Failed), LogFor(task, TaskFailed(task.id, retryCount)));
      SetWorkflowStatus(failed, task.workflowInstanceId, WorkflowFailed)
    else
      var newRetryCount := retryCount + 1;
      var w := SetTaskRetryCount(s, task.id, newRetryCount);
      if !w.ok then s
      else
        var retried := AppendLog(SetTaskStatus(w.store, task.id, Failed),
                                 LogFor(task, TaskRetry(task.id, newRetryCount, Backoff(newRetryCount))));
        SetTaskStatus(retried, task.id, Pending)
  }

  /** The first position of `name` in `names`, or -1. */
  function StepIndex(names: seq<string>, name: string): (i: int)
    ensures -1 <= i < |names|
    ensures i == -1 <==> name !in names
    ensures i >= 0 ==> names[i] == name && name !in names[..i]
  {
    if names == [] then -1
    else if names[0] == name then 0
    else
      var j := StepIndex(names[1..], name);
      assert j >= 0 ==> names[..j + 1] == [names[0]] + names[1..][..j];
      if j == -1 then -1 else j + 1
  }

  /** The index search loop of `orchestrateNextStep`, with its early exit. */
  method FindStepIndex(names: seq<string>, name: string) returns (index: int)
    ensures index == StepIndex(names, name)
  {
    index := -1;
    var i := 0;
    while i < |names|
      invariant 0 <= i <= |names|
      invariant name !in names[..i]
      invariant index == -1
    {
      if names[i] == name {
        index := i;
        break;
      }
      assert names[..i + 1] == names[..i] + [names[i]];
      i := i + 1;
    }
    if index == -1 {
      assert names[..i] == names;
    }
  }

  /** The branch condition at the decision point: the task's first occurrence is not the last step. */
  predicate HasNextStep(names: seq<string>, name: string) {
    StepIndex(names, name) != -1 && StepIndex(names, name) < |names| - 1
  }

  /** The task queued after `task` when its step is followed by `next`. */
  function NextTask(task: Task, next: string): Task {
    Task(0, task.workflowInstanceId, next, Pending, None, task.outputPayload, None)
  }

  /**
   * `orchestrateNextStep`: if the workflow and its definition exist, either
   * queue the next step (when there is one) or mark the workflow COMPLETED.
   * A task name missing from the definition takes the COMPLETED branch.
   */
  function NextStepOrchestrated(s: Store, defs: map<string, WorkflowDefinition>, task: Task): (r: Store)
    ensures FindWorkflow(s.workflows, task.workflowInstanceId).None? ==> r == s
    ensures (FindWorkflow(s.workflows, task.workflowInstanceId).Some? &&
             FindWorkflow(s.workflows, task.workflowInstanceId).value.workflowName !in defs) ==> r == s
    ensures r.faults == s.faults && |r.tasks| >= |s.tasks| && r.tasks[..|s.tasks|] == s.tasks
    ensures var wf := FindWorkflow(s.workflows, task.workflowInstanceId);
            (wf.Some? && wf.value.workflowName in defs && HasNextStep(defs[wf.value.workflowName].taskNames, task.taskName)) ==>
              var names := defs[wf.value.workflowName].taskNames;
              && r.workflows == s.workflows && r.logs == s.logs
              && (CreateTaskFault in s.faults ==> r.tasks == s.tasks)
              && (CreateTaskFault !in s.faults ==>
                    r.tasks == s.tasks + [Task(NextTaskId(s), task.workflowInstanceId,
                                               names[StepIndex(names, task.taskName) + 1],
                                               Pending, None, task.outputPayload, None)])
    ensures var wf := FindWorkflow(s.workflows, task.workflowInstanceId);
            (wf.Some? && wf.value.workflowName in defs && !HasNextStep(defs[wf.value.workflowName].taskNames, task.taskName)) ==>
              && r.tasks == s.tasks
              && r.logs == s.logs + [ActivityLog(task.workflowInstanceId, None,
                                       WorkflowCompletion(wf.value.workflowName, |defs[wf.value.workflowName].taskNames|))]
              && |r.workflows| == |s.workflows|
              && (forall i :: 0 <= i < |s.workflows| ==>
                    r.workflows[i] == if s.workflows[i].id == task.workflowInstanceId
                                      then s.workflows[i].(status := WorkflowCompleted) else s.workflows[i])
  {
    match FindWorkflow(s.workflows, task.workflowInstanceId)
    case None => s
    case Some(wf) =>
      match Lookup(defs, wf.workflowName)
      case None => s
      case Some(def) =>
        if HasNextStep(def.taskNames, task.taskName) then
          InsertTask(s, NextTask(task, def.taskNames[StepIndex(def.taskNames, task.taskName) + 1])).store
        else
          var done := SetWorkflowStatus(s, wf.id, WorkflowCompleted);
          AppendLog(done, ActivityLog(wf.id, None, WorkflowCompletion(wf.workflowName, |def.taskNames|)))
  }

  /** `handleTaskSuccess`: COMPLETED, a TASK_COMPLETED entry, then orchestration. */
  function SuccessHandled(s: Store, defs: map<string, WorkflowDefinition>, task: Task, retryCount: int): (r: Store)
    ensures |r.logs| > |s.logs| && r.logs[..|s.logs| + 1] == s.logs + [LogFor(task, TaskCompleted(task.id, retryCount))]
    ensures |r.tasks| >= |s.tasks| && r.faults == s.faults
    ensures forall i :: 0 <= i < |s.tasks| ==>
              r.tasks[i] == if s.tasks[i].id == task.id then s.tasks[i].(status := Completed) else s.tasks[i]
    ensures var wf := FindWorkflow(s.workflows, task.workflowInstanceId);
            (wf.None? || wf.value.workflowName !in defs) ==>
              && r.workflows == s.workflows && |r.tasks| == |s.tasks|
              && r.logs == s.logs + [LogFor(task, TaskCompleted(task.id, retryCount))]
    ensures var wf := FindWorkflow(s.workflows, task.workflowInstanceId);
            (wf.Some? && wf.value.workflowName in defs && HasNextStep(defs[wf.value.workflowName].taskNames, task.taskName)) ==>
              var names := defs[wf.value.workflowName].taskNames;
              && r.workflows == s.workflows
              && r.logs == s.logs + [LogFor(task, TaskCompleted(task.id, retryCount))]
              && (CreateTaskFault in s.faults ==> |r.tasks| == |s.tasks|)
              && (CreateTaskFault !in s.faults ==>
                    |r.tasks| == |s.tasks| + 1
                    && r.tasks[|s.tasks|] == Task(NextTaskId(s), task.workflowInstanceId,
                                                  names[StepIndex(names, task.taskName) + 1],
                                                  Pending, None, task.outputPayload, None))
    ensures var wf := FindWorkflow(s.workflows, task.workflowInstanceId);
            (wf.Some? && wf.value.workflowName in defs && !HasNextStep(defs[wf.value.workflowName].taskNames, task.taskName)) ==>
              && |r.tasks| == |s.tasks|
              && r.logs == s.logs + [LogFor(task, TaskCompleted(task.id, retryCount)),
                                     ActivityLog(task.workflowInstanceId, None,
                                       WorkflowCompletion(wf.value.workflowName, |defs[wf.value.workflowName].taskNames|))]
              && |r.workflows| == |s.workflows|
              && (forall i :: 0 <= i < |s.workflows| ==>
                    r.workflows[i] == if s.workflows[i].id == task.workflowInstanceId
                                      then s.workflows[i].(status := WorkflowCompleted) else s.workflows[i])
  {
    var completed := AppendLog(SetTaskStatus(s, task.id, Completed), LogFor(task, TaskCompleted(task.id, retryCount)));
    NextStepOrchestrated(completed, defs, task)
  }

  /** The state after the start status and the TASK_STARTED entry are written. */
  function Started(s: Store, task: Task): (r: Store)
    ensures r.workflows == s.workflows && r.faults == s.faults
    ensures r.logs == s.logs + [LogFor(task, TaskStarted(task.id, RetryCountOf(task)))]
    ensures |r.tasks| == |s.tasks|
    ensures forall i :: 0 <= i < |s.tasks| ==>
              r.tasks[i] == if s.tasks[i].id == task.id then s.tasks[i].(status := StartStatus(RetryCountOf(task)))
                            else s.tasks[i]
  {
    var retryCount := RetryCountOf(task);
    AppendLog(SetTaskStatus(s, task.id, StartStatus(retryCount)), LogFor(task, TaskStarted(task.id, retryCount)))
  }

  /** Both lookups that precede running the task function succeed. */
  predicate Runnable(s: Store, defs: map<string, WorkflowDefinition>, task: Task) {
    match FindWorkflow(s.workflows, task.workflowInstanceId)
    case None => false
    case Some(wf) => TaskFuncOf(defs, wf.workflowName, task.taskName).Some?
  }

  /** What the failure path leaves behind once the task has been started. */
  lemma FailureAfterStart(s: Store, task: Task, maxRetries: int, r: Store)
    requires r == FailureHandled(Started(s, task), task, RetryCountOf(task), maxRetries)
    ensures |r.logs| > |s.logs| && r.logs[..|s.logs|] == s.logs
    ensures r.logs[|s.logs|] == LogFor(task, TaskStarted(task.id, RetryCountOf(task)))
    ensures |r.tasks| == |s.tasks|
    ensures forall i :: 0 <= i < |s.tasks| && s.tasks[i].id == task.id ==> r.tasks[i].status != Completed
    ensures forall k :: |s.logs| < k < |r.logs| ==> !r.logs[k].event.TaskCompleted?
  {
    var started := Started(s, task);
    var n := RetryCountOf(task);
    if n >= Int32(maxRetries) {
      assert r.logs == s.logs + [LogFor(task, TaskStarted(task.id, n)), LogFor(task, TaskFailed(task.id, n))];
    } else if RetryCountFault in started.faults {
      assert r.logs == s.logs + [LogFor(task, TaskStarted(task.id, n))];
    } else {
      assert r.logs == s.logs + [LogFor(task, TaskStarted(task.id, n)),
                                 LogFor(task, TaskRetry(task.id, n + 1, Backoff(n + 1)))];
    }
  }

  /** What the success path leaves behind once the task has been started. */
  lemma SuccessAfterStart(s: Store, defs: map<string, WorkflowDefinition>, task: Task, output: Option<string>, r: Store)
    requires r == SuccessHandled(Started(s, task), defs, task.(outputPayload := output), RetryCountOf(task))
    ensures |r.logs| > |s.logs| + 1 && r.logs[..|s.logs|] == s.logs
    ensures r.logs[|s.logs|] == LogFor(task, TaskStarted(task.id, RetryCountOf(task)))
    ensures r.logs[|s.logs| + 1] == LogFor(task, TaskCompleted(task.id, RetryCountOf(task)))
    ensures |r.tasks| >= |s.tasks|
    ensures forall i :: 0 <= i < |s.tasks| && s.tasks[i].id == task.id ==> r.tasks[i].status == Completed
  {
    var started := Started(s, task);
    var n := RetryCountOf(task);
    assert LogFor(task.(outputPayload := output), TaskCompleted(task.id, n)) == LogFor(task, TaskCompleted(task.id, n));
    assert r.logs[..|started.logs| + 1] == s.logs + [LogFor(task, TaskStarted(task.id, n)), LogFor(task, TaskCompleted(task.id, n))];
    assert r.logs[..|s.logs|] == r.logs[..|started.logs| + 1][..|s.logs|];
  }

  /** `executeTask` for a task function that produced `result`. */
  function TaskExecuted(s: Store, defs: map<string, WorkflowDefinition>, maxRetries: int, task: Task, result: TaskResult)
    : (r: Store)
    ensures |r.logs| > |s.logs| && r.logs[..|s.logs|] == s.logs
    ensures r.logs[|s.logs|] == LogFor(task, TaskStarted(task.id, RetryCountOf(task)))
    ensures !(Runnable(s, defs, task) && result.Succeeded?) ==>
              && |r.tasks| == |s.tasks|
              && (forall i :: 0 <= i < |s.tasks| && s.tasks[i].id == task.id ==> r.tasks[i].status != Completed)
              && (forall k :: |s.logs| < k < |r.logs| ==> !r.logs[k].event.TaskCompleted?)
    ensures Runnable(s, defs, task) && result.Succeeded? ==>
              && |r.logs| > |s.logs| + 1
              && r.logs[|s.logs| + 1] == LogFor(task, TaskCompleted(task.id, RetryCountOf(task)))
              && |r.tasks| >= |s.tasks|
              && (forall i :: 0 <= i < |s.tasks| && s.tasks[i].id == task.id ==> r.tasks[i].status == Completed)
    ensures Runnable(s, defs, task) && result.Succeeded? ==>
              r == SuccessHandled(Started(s, task), defs, task.(outputPayload := result.output), RetryCountOf(task))
    ensures !(Runnable(s, defs, task) && result.Succeeded?) ==>
              r == FailureHandled(Started(s, task), task, RetryCountOf(task), maxRetries)
  {
    var started := Started(s, task);
    assert started.workflows == s.workflows;
    if Runnable(s, defs, task) && result.Succeeded? then
      var r := SuccessHandled(started, defs, task.(outputPayload := result.output), RetryCountOf(task));
      SuccessAfterStart(s, defs, task, result.output, r);
      r
    else
      var r := FailureHandled(started, task, RetryCountOf(task), maxRetries);
      FailureAfterStart(s, task, maxRetries, r);
      r
  }

  class WorkflowWorker {
    const repo: Repository
    const registry: WorkflowRegistry
    const pollInterval: int
    const batchSize: int
    const taskTimeout: int
    const maxRetries: int

    constructor (repo: Repository, registry: WorkflowRegistry, pollInterval: int, batchSize: int,
                 taskTimeout: int, maxRetries: int)
      ensures this.repo == repo && this.registry == registry
      ensures this.pollInterval == pollInterval && this.batchSize == batchSize
      ensures this.taskTimeout == taskTimeout && this.maxRetries == maxRetries
    {
      this.repo := repo;
      this.registry := registry;
      this.pollInterval := pollInterval;
      this.batchSize := batchSize;
      this.taskTimeout := taskTimeout;
      this.maxRetries := maxRetries;
    }

    method ExecuteTask(task: Task, result: TaskResult)
      modifies repo
      ensures repo.State() == TaskExecuted(old(repo.State()), registry.definitions, maxRetries, task, result)
    {
      var retryCount := RetryCountOf(task);
      var status := InProgress;
      if retryCount > 0 {
        status := Retrying;
      }
      repo.UpdateTaskStatus(task.id, status);
      repo.CreateActivityLog(LogFor(task, TaskStarted(task.id, retryCount)));

      var wf := repo.GetWorkflowByID(task.workflowInstanceId);
      if wf.None? {
        HandleTaskFailure(task, retryCount);
        return;
      }
      var taskFunc := registry.GetTaskFunc(wf.value.workflowName, task.taskName);
      if taskFunc.None? {
        HandleTaskFailure(task, retryCount);
        return;
      }
      if result.Errored? {
        HandleTaskFailure(task, retryCount);
        return;
      }
      HandleTaskSuccess(task.(outputPayload := result.output), retryCount);
    }

    method HandleTaskFailure(task: Task, retryCount: int)
      modifies repo
      ensures repo.State() == FailureHandled(old(repo.State()), task, retryCount, maxRetries)
    {
      if retryCount >= Int32(maxRetries) {
        repo.UpdateTaskStatus(task.id, Failed);
        repo.CreateActivityLog(LogFor(task, TaskFailed(task.id, retryCount)));
        repo.UpdateWorkflowStatus(task.workflowInstanceId, WorkflowFailed);
        return;
      }
      var newRetryCount := retryCount + 1;
      var ok := repo.UpdateTaskRetryCount(task.id, newRetryCount);
      if !ok {
        return;
      }
      var backoffDelay := Backoff(newRetryCount);
      repo.UpdateTaskStatus(task.id, Failed);
      repo.CreateActivityLog(LogFor(task, TaskRetry(task.id, newRetryCount, backoffDelay)));
      repo.UpdateTaskStatus(task.id, Pending);
    }

    method HandleTaskSuccess(task: Task, retryCount: int)
      modifies repo
      ensures repo.State() == SuccessHandled(old(repo.State()), registry.definitions, task, retryCount)
    {
      repo.UpdateTaskStatus(task.id, Completed);
      repo.CreateActivityLog(LogFor(task, TaskCompleted(task.id, retryCount)));
      OrchestrateNextStep(task);
    }

    method OrchestrateNextStep(currentTask: Task)
      modifies repo
      ensures repo.State() == NextStepOrchestrated(old(repo.State()), registry.definitions, currentTask)
    {
      var wf := repo.GetWorkflowByID(currentTask.workflowInstanceId);
      if wf.None? {
        return;
      }
      var def := registry.GetDefinition(wf.value.workflowName);
      if def.None? {
        return;
      }
      var names := def.value.taskNames;
      var currentStepIndex := FindStepIndex(names, currentTask.taskName);
      if currentStepIndex != -1 && currentStepIndex < |names| - 1 {
        var ok := repo.CreateTask(NextTask(currentTask, names[currentStepIndex + 1]));
      } else {
        repo.UpdateWorkflowStatus(wf.value.id, WorkflowCompleted);
        repo.CreateActivityLog(ActivityLog(wf.value.id, None,
                                           WorkflowCompletion(wf.value.workflowName, |names|)));
      }
    }
  }

  const DefaultPollInterval: int := 5 * Second
  const DefaultBatchSize: int := 10
  const DefaultTaskTimeout: int := 30 * Second
  const DefaultMaxRetries: int := 3

  /** `WorkBuilder`: a fluent configuration of a worker. */
  class WorkBuilder {
    var repo: Repository
    var registry: WorkflowRegistry
    var pollInterval: int
    var batchSize: int
    var taskTimeout: int
    var maxRetries: int

    /** `NewWorkerBuilder`. */
    constructor (repo: Repository, registry: WorkflowRegistry)
      ensures this.repo == repo && this.registry == registry
      ensures pollInterval == 5 * Second && batchSize == 10
      ensures taskTimeout == 30 * Second && maxRetries == 3
    {
      this.repo := repo;
      this.registry := registry;
      pollInterval := DefaultPollInterval;
      batchSize := DefaultBatchSize;
      taskTimeout := DefaultTaskTimeout;
      maxRetries := DefaultMaxRetries;
    }

    method WithPollInterval(d: int) returns (b: WorkBuilder)
      modifies this
      ensures b == this && pollInterval == d
      ensures repo == old(repo) && registry == old(registry)
      ensures batchSize == old(batchSize) && taskTimeout == old(taskTimeout) && maxRetries == old(maxRetries)
    {
      pollInterval := d;
      b := this;
    }

    method WithBatchSize(size: int) returns (b: WorkBuilder)
      modifies this
      ensures b == this && batchSize == size
      ensures repo == old(repo) && registry == old(registry)
      ensures pollInterval == old(pollInterval) && taskTimeout == old(taskTimeout) && maxRetries == old(maxRetries)
    {
      batchSize := size;
      b := this;
    }

    method WithTaskTimeout(d: int) returns (b: WorkBuilder)
      modifies this
      ensures b == this && taskTimeout == d
      ensures repo == old(repo) && registry == old(registry)
      ensures pollInterval == old(pollInterval) && batchSize == old(batchSize) && maxRetries == old(maxRetries)
    {
      taskTimeout := d;
      b := this;
    }

    method WithMaxRetries(n: int) returns (b: WorkBuilder)
      modifies this
      ensures b == this && maxRetries == n
      ensures repo == old(repo) && registry == old(registry)
      ensures pollInterval == old(pollInterval) && batchSize == old(batchSize) && taskTimeout == old(taskTimeout)
    {
      maxRetries := n;
      b := this;
    }

    method Build() returns (w: WorkflowWorker)
      ensures fresh(w)
      ensures w.repo == repo && w.registry == registry
      ensures w.pollInterval == pollInterval && w.batchSize == batchSize
      ensures w.taskTimeout == taskTimeout && w.maxRetries == maxRetries
    {
      w := new WorkflowWorker(repo, registry, pollInterval, batchSize, taskTimeout, maxRetries);
    }
  }
}
