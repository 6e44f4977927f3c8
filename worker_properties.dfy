/** Properties of the worker step that relate several calls or hold over all inputs. */
module WorkerProperties {
  import opened Common
  import opened Port
  import opened Registry
  import opened Worker

  /** The decision at the branch: there is a next step exactly when the name occurs before the last position. */
  lemma HasNextStepIff(names: seq<string>, name: string)
    ensures HasNextStep(names, name) <==> |names| > 0 && name in names[..|names| - 1]
  {
    var i := StepIndex(names, name);
    if |names| > 0 && name in names[..|names| - 1] {
      var j :| 0 <= j < |names| - 1 && names[j] == name;
      assert i != -1;
    }
    if HasNextStep(names, name) {
      assert names[..|names| - 1][i] == name;
    }
  }

  /** A task name the definition does not list falls into the "complete the workflow" branch. */
  lemma UnknownTaskCompletesWorkflow(s: Store, defs: map<string, WorkflowDefinition>, task: Task, wf: WorkflowInstance)
    requires FindWorkflow(s.workflows, task.workflowInstanceId) == Some(wf)
    requires wf.workflowName in defs
    requires task.taskName !in defs[wf.workflowName].taskNames
    ensures var r := NextStepOrchestrated(s, defs, task);
            && r.tasks == s.tasks
            && r.logs == s.logs + [ActivityLog(task.workflowInstanceId, None,
                                     WorkflowCompletion(wf.workflowName, |defs[wf.workflowName].taskNames|))]
            && forall i :: 0 <= i < |s.workflows| && s.workflows[i].id == task.workflowInstanceId ==>
                 r.workflows[i].status == WorkflowCompleted
  {
    assert !HasNextStep(defs[wf.workflowName].taskNames, task.taskName);
  }

  /**
   * Only the first occurrence of a name counts: when a step's name also occurs
   * at an earlier position `i` that is not the last, finishing the later step
   * queues the step after (at most) position `i`, never the one after `j`.
   */
  lemma RepeatedNameQueuesStepAfterFirst(names: seq<string>, i: nat, j: nat)
    requires i < j < |names| && names[i] == names[j]
    ensures HasNextStep(names, names[j])
    ensures StepIndex(names, names[j]) <= i < j
  {
    assert names[..|names| - 1][i] == names[j];
    HasNextStepIff(names, names[j]);
  }

  /** Every stored retry count (nil read as 0) is at most `bound`. */
  ghost predicate RetriesWithin(s: Store, bound: int) {
    forall i :: 0 <= i < |s.tasks| ==> RetryCountOf(s.tasks[i]) <= bound
  }

  lemma SetTaskStatusKeepsRetries(s: Store, id: int, st: TaskStatus, bound: int)
    requires RetriesWithin(s, bound)
    ensures RetriesWithin(SetTaskStatus(s, id, st), bound)
  {
    var r := SetTaskStatus(s, id, st);
    forall i | 0 <= i < |r.tasks| ensures RetryCountOf(r.tasks[i]) <= bound {
      assert r.tasks[i].retryCount == s.tasks[i].retryCount;
    }
  }

  lemma OrchestrationKeepsRetries(s: Store, defs: map<string, WorkflowDefinition>, task: Task, bound: int)
    requires bound >= 0 && RetriesWithin(s, bound)
    ensures RetriesWithin(NextStepOrchestrated(s, defs, task), bound)
  {
    var r := NextStepOrchestrated(s, defs, task);
    forall i | 0 <= i < |r.tasks| ensures RetryCountOf(r.tasks[i]) <= bound {
      if i < |s.tasks| {
        assert r.tasks[i] == r.tasks[..|s.tasks|][i];
      }
    }
  }

  /**
   * The retry count a worker stores never exceeds `int32(maxRetries)`: a
   * failed attempt raises it only while it is below that bound.
   */
  lemma ExecutionKeepsRetriesWithinMax(s: Store, defs: map<string, WorkflowDefinition>, maxRetries: int,
                                       task: Task, result: TaskResult)
    requires Int32(maxRetries) >= 0 && RetriesWithin(s, Int32(maxRetries))
    ensures RetriesWithin(TaskExecuted(s, defs, maxRetries, task, result), Int32(maxRetries))
  {
    var bound := Int32(maxRetries);
    var rc := RetryCountOf(task);
    var started := Started(s, task);
    SetTaskStatusKeepsRetries(s, task.id, StartStatus(rc), bound);
    assert RetriesWithin(started, bound);
    if Runnable(started, defs, task) && result.Succeeded? {
      var t := task.(outputPayload := result.output);
      var completed := AppendLog(SetTaskStatus(started, t.id, Completed), LogFor(t, TaskCompleted(t.id, rc)));
      SetTaskStatusKeepsRetries(started, t.id, Completed, bound);
      OrchestrationKeepsRetries(completed, defs, t, bound);
    } else {
      var r := FailureHandled(started, task, rc, maxRetries);
      forall i | 0 <= i < |r.tasks| ensures RetryCountOf(r.tasks[i]) <= bound {
        if started.tasks[i].id == task.id && rc < bound && RetryCountFault !in s.faults {
          assert r.tasks[i].retryCount == Some(rc + 1);
        }
      }
    }
  }

  /**
   * A step whose task does not succeed goes through failure handling right
   * after TASK_STARTED: at the limit the task and its workflow fail;
   * below it the task is queued again with the next retry count.
   */
  lemma FailedStepOutcome(s: Store, defs: map<string, WorkflowDefinition>, maxRetries: int,
                          task: Task, result: TaskResult)
    requires !(Runnable(s, defs, task) && result.Succeeded?)
    ensures var r := TaskExecuted(s, defs, maxRetries, task, result);
            var n := RetryCountOf(task);
            n >= Int32(maxRetries) ==>
              && r.logs == s.logs + [LogFor(task, TaskStarted(task.id, n)), LogFor(task, TaskFailed(task.id, n))]
              && (forall i :: 0 <= i < |s.tasks| && s.tasks[i].id == task.id ==>
                    r.tasks[i] == s.tasks[i].(status := Failed))
              && (forall i :: 0 <= i < |s.workflows| && s.workflows[i].id == task.workflowInstanceId ==>
                    r.workflows[i] == s.workflows[i].(status := WorkflowFailed))
    ensures var r := TaskExecuted(s, defs, maxRetries, task, result);
            var n := RetryCountOf(task);
            n < Int32(maxRetries) && RetryCountFault !in s.faults ==>
              && r.logs == s.logs + [LogFor(task, TaskStarted(task.id, n)),
                                     LogFor(task, TaskRetry(task.id, n + 1, Backoff(n + 1)))]
              && (forall i :: 0 <= i < |s.tasks| && s.tasks[i].id == task.id ==>
                    r.tasks[i] == s.tasks[i].(status := Pending, retryCount := Some(n + 1)))
              && r.workflows == s.workflows
  {
    var started := Started(s, task);
    assert forall i :: 0 <= i < |s.tasks| && s.tasks[i].id == task.id ==>
             started.tasks[i] == s.tasks[i].(status := StartStatus(RetryCountOf(task)));
  }

  lemma SetTaskStatusKeepsValid(s: Store, id: int, st: TaskStatus)
    requires Valid(s)
    ensures Valid(SetTaskStatus(s, id, st))
  {
  }

  lemma SetWorkflowStatusKeepsValid(s: Store, id: string, st: WorkflowStatus)
    requires Valid(s)
    ensures Valid(SetWorkflowStatus(s, id, st))
  {
    var r := SetWorkflowStatus(s, id, st);
    forall i, j | 0 <= i < j < |r.workflows| ensures r.workflows[i].id != r.workflows[j].id {
      assert r.workflows[i].id == s.workflows[i].id && r.workflows[j].id == s.workflows[j].id;
    }
  }

  lemma SuccessKeepsStoreValid(s: Store, defs: map<string, WorkflowDefinition>, task: Task, rc: int)
    requires Valid(s)
    ensures Valid(SuccessHandled(s, defs, task, rc))
  {
    var completed := AppendLog(SetTaskStatus(s, task.id, Completed), LogFor(task, TaskCompleted(task.id, rc)));
    SetTaskStatusKeepsValid(s, task.id, Completed);
    var wf := FindWorkflow(completed.workflows, task.workflowInstanceId);
    if wf.Some? && wf.value.workflowName in defs && !HasNextStep(defs[wf.value.workflowName].taskNames, task.taskName) {
      SetWorkflowStatusKeepsValid(completed, wf.value.id, WorkflowCompleted);
    }
  }

  lemma FailureKeepsStoreValid(s: Store, task: Task, rc: int, maxRetries: int)
    requires Valid(s)
    ensures Valid(FailureHandled(s, task, rc, maxRetries))
  {
    if rc >= Int32(maxRetries) {
      var failed := AppendLog(SetTaskStatus(s, task.id, Failed), LogFor(task, TaskFailed(task.id, rc)));
      SetWorkflowStatusKeepsValid(failed, task.workflowInstanceId, WorkflowFailed);
    }
  }

  /** One worker step keeps the primary keys of the store intact. */
  lemma ExecutionKeepsStoreValid(s: Store, defs: map<string, WorkflowDefinition>, maxRetries: int,
                                 task: Task, result: TaskResult)
    requires Valid(s)
    ensures Valid(TaskExecuted(s, defs, maxRetries, task, result))
  {
    var rc := RetryCountOf(task);
    SetTaskStatusKeepsValid(s, task.id, StartStatus(rc));
    if Runnable(s, defs, task) && result.Succeeded? {
      SuccessKeepsStoreValid(Started(s, task), defs, task.(outputPayload := result.output), rc);
    } else {
      FailureKeepsStoreValid(Started(s, task), task, rc, maxRetries);
    }
  }

  lemma {:induction false} Pow2Monotone(m: nat, n: nat)
    requires m <= n
    ensures Pow2(m) <= Pow2(n)
  {
    if m < n {
      Pow2Monotone(m, n - 1);
    }
  }

  lemma DoubleFactor(p: int, q: int)
    ensures 2 * (p * q) == p * (2 * q)
  {
  }

  lemma {:induction false} Pow2Add(a: nat, b: nat)
    ensures Pow2(a + b) == Pow2(a) * Pow2(b)
  {
    if b > 0 {
      Pow2Add(a, b - 1);
      assert Pow2(a + b) == 2 * Pow2(a + b - 1);
      DoubleFactor(Pow2(a), Pow2(b - 1));
    }
  }

  lemma Pow2Values()
    ensures Pow2(33) == 0x2_0000_0000 && Pow2(34) == 0x4_0000_0000
    ensures Pow2(64) == 0x1_0000_0000_0000_0000
  {
    Pow2Add(10, 23);
    Pow2Add(10, 13);
    Pow2Add(10, 3);
    Pow2Add(33, 1);
    Pow2Add(30, 34);
    Pow2Add(10, 20);
    Pow2Add(10, 10);
  }

  /** Below 34 retries nothing wraps: the delay is exactly 2^n seconds. */
  lemma BackoffExact(n: int)
    requires 0 <= n <= 33
    ensures Backoff(n) == Pow2(n) * Second
  {
    Pow2Monotone(n, 33);
    Pow2Values();
  }

  /** With the default of three retries the delays are 2s, 4s and 8s, doubling each time. */
  lemma DefaultBackoffs()
    ensures Backoff(1) == 2 * Second && Backoff(2) == 4 * Second && Backoff(3) == 8 * Second
  {
  }

  /** From the 34th retry on, `time.Duration` overflows: the 34th delay is negative, the 64th is zero. */
  lemma BackoffWraps()
    ensures Backoff(34) < 0 && Backoff(64) == 0
  {
    Pow2Values();
  }
}
