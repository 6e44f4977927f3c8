/**
 * The two workflows the application registers, OrderProcess and
 * RefundProcess, and what the worker does with them step by step.
 */
module Scenarios {
  import opened Common
  import opened Port
  import opened Registry
  import opened Worker
  import opened Service

  /** Handles standing for the six task functions. */
  const ValidateOrderFunc: TaskFunc := 1
  const DeductMoneyFunc: TaskFunc := 2
  const SendEmailFunc: TaskFunc := 3
  const ValidateRefundFunc: TaskFunc := 4
  const ProcessRefundFunc: TaskFunc := 5
  const NotifyCustomerFunc: TaskFunc := 6

  function OrderProcess(): WorkflowDefinition {
    WorkflowDefinition("OrderProcess", ["ValidateOrder", "DeductMoney", "SendEmail"],
                       map["ValidateOrder" := ValidateOrderFunc, "DeductMoney" := DeductMoneyFunc,
                           "SendEmail" := SendEmailFunc])
  }

  function RefundProcess(): WorkflowDefinition {
    WorkflowDefinition("RefundProcess", ["ValidateRefund", "ProcessRefund", "NotifyCustomer"],
                       map["ValidateRefund" := ValidateRefundFunc, "ProcessRefund" := ProcessRefundFunc,
                           "NotifyCustomer" := NotifyCustomerFunc])
  }

  /** `order.Register`: a fresh registry gains OrderProcess; registering it twice panics. */
  method RegisterOrderProcess(reg: WorkflowRegistry) returns (panicMessage: Option<string>)
    modifies reg
    ensures "OrderProcess" !in old(reg.definitions) ==>
              panicMessage.None? && reg.definitions == old(reg.definitions)["OrderProcess" := OrderProcess()]
    ensures "OrderProcess" in old(reg.definitions) ==>
              && panicMessage == Some("failed to build workflow: " + Message(AlreadyRegistered("OrderProcess")))
              && reg.definitions == old(reg.definitions)
  {
    var b := reg.NewWorkflow("OrderProcess");
    b := b.AddTask("ValidateOrder", ValidateOrderFunc);
    b := b.AddTask("DeductMoney", DeductMoneyFunc);
    b := b.AddTask("SendEmail", SendEmailFunc);
    assert b.Definition() == OrderProcess();
    panicMessage := b.MustBuild();
  }

  /** `refund.Register`, the same shape for RefundProcess. */
  method RegisterRefundProcess(reg: WorkflowRegistry) returns (panicMessage: Option<string>)
    modifies reg
    ensures "RefundProcess" !in old(reg.definitions) ==>
              panicMessage.None? && reg.definitions == old(reg.definitions)["RefundProcess" := RefundProcess()]
    ensures "RefundProcess" in old(reg.definitions) ==>
              && panicMessage == Some("failed to build workflow: " + Message(AlreadyRegistered("RefundProcess")))
              && reg.definitions == old(reg.definitions)
  {
    var b := reg.NewWorkflow("RefundProcess");
    b := b.AddTask("ValidateRefund", ValidateRefundFunc);
    b := b.AddTask("ProcessRefund", ProcessRefundFunc);
    b := b.AddTask("NotifyCustomer", NotifyCustomerFunc);
    assert b.Definition() == RefundProcess();
    panicMessage := b.MustBuild();
  }

  /** The three steps of an order follow each other, and the last one completes the order. */
  lemma OrderStepsFollowEachOther(s: Store, defs: map<string, WorkflowDefinition>, task: Task, wf: WorkflowInstance)
    requires "OrderProcess" in defs && defs["OrderProcess"] == OrderProcess()
    requires FindWorkflow(s.workflows, task.workflowInstanceId) == Some(wf) && wf.workflowName == "OrderProcess"
    requires CreateTaskFault !in s.faults
    ensures task.taskName == "ValidateOrder" ==>
              NextStepOrchestrated(s, defs, task).tasks
              == s.tasks + [Task(NextTaskId(s), task.workflowInstanceId, "DeductMoney", Pending, None, task.outputPayload, None)]
    ensures task.taskName == "DeductMoney" ==>
              NextStepOrchestrated(s, defs, task).tasks
              == s.tasks + [Task(NextTaskId(s), task.workflowInstanceId, "SendEmail", Pending, None, task.outputPayload, None)]
    ensures task.taskName == "SendEmail" ==>
              && NextStepOrchestrated(s, defs, task).tasks == s.tasks
              && NextStepOrchestrated(s, defs, task).logs
                 == s.logs + [ActivityLog(task.workflowInstanceId, None, WorkflowCompletion("OrderProcess", 3))]
  {
    var names := OrderProcess().taskNames;
    assert StepIndex(names, "ValidateOrder") == 0;
    assert StepIndex(names, "DeductMoney") == 1;
    assert StepIndex(names, "SendEmail") == 2;
  }

  /**
   * A definition that repeats a name loops: finishing the second "A" queues
   * "B" again instead of completing the workflow.
   */
  lemma RepeatedNameCycles(s: Store, defs: map<string, WorkflowDefinition>, task: Task, wf: WorkflowInstance)
    requires FindWorkflow(s.workflows, task.workflowInstanceId) == Some(wf)
    requires wf.workflowName in defs && defs[wf.workflowName].taskNames == ["A", "B", "A"]
    requires CreateTaskFault !in s.faults && task.taskName == "A"
    ensures var r := NextStepOrchestrated(s, defs, task);
            && r.workflows == s.workflows && r.logs == s.logs
            && r.tasks == s.tasks + [Task(NextTaskId(s), task.workflowInstanceId, "B", Pending, None, task.outputPayload, None)]
  {
    assert StepIndex(["A", "B", "A"], "A") == 0;
  }

  /** The registry the application builds at start-up. */
  function AppDefinitions(): map<string, WorkflowDefinition> {
    map["OrderProcess" := OrderProcess(), "RefundProcess" := RefundProcess()]
  }

  /*
   * An order whose three task functions all succeed, run on an empty store:
   * one worker step per task, each picking up the row the previous step
   * queued. The output of a step becomes the next step's input but is not
   * stored on its own row.
   */

  /** Starting an order writes the PENDING workflow and its first task, id 1. */
  lemma OrderStarts(id: string, input: string)
    ensures var wf := NewInstance(id, "OrderProcess", input);
            var t1 := Task(1, id, "ValidateOrder", Pending, None, Some(input), None);
            WorkflowStarted(Store([], [], [], {}), AppDefinitions(), "OrderProcess", input, id)
            == StartOutcome(Store([wf], [t1], [], {}), Success(wf))
  {
  }

  /** Validating the order completes task 1 and queues DeductMoney with its output. */
  lemma OrderFirstStep(id: string, input: string, out1: Option<string>)
    ensures var wf := NewInstance(id, "OrderProcess", input);
            var t1 := Task(1, id, "ValidateOrder", Pending, None, Some(input), None);
            var t2 := Task(2, id, "DeductMoney", Pending, None, out1, None);
            TaskExecuted(Store([wf], [t1], [], {}), AppDefinitions(), DefaultMaxRetries, t1, Succeeded(out1))
            == Store([wf], [t1.(status := Completed), t2],
                     [LogFor(t1, TaskStarted(1, 0)), LogFor(t1, TaskCompleted(1, 0))], {})
  {
    assert StepIndex(OrderProcess().taskNames, "ValidateOrder") == 0;
  }

  /** Deducting the money completes task 2 and queues SendEmail with its output. */
  lemma OrderSecondStep(id: string, input: string, out1: Option<string>, out2: Option<string>)
    ensures var wf := NewInstance(id, "OrderProcess", input);
            var t1 := Task(1, id, "ValidateOrder", Completed, None, Some(input), None);
            var t2 := Task(2, id, "DeductMoney", Pending, None, out1, None);
            var t3 := Task(3, id, "SendEmail", Pending, None, out2, None);
            var logs := [LogFor(t1, TaskStarted(1, 0)), LogFor(t1, TaskCompleted(1, 0))];
            TaskExecuted(Store([wf], [t1, t2], logs, {}), AppDefinitions(), DefaultMaxRetries, t2, Succeeded(out2))
            == Store([wf], [t1, t2.(status := Completed), t3],
                     logs + [LogFor(t2, TaskStarted(2, 0)), LogFor(t2, TaskCompleted(2, 0))], {})
  {
    assert StepIndex(OrderProcess().taskNames, "DeductMoney") == 1;
  }

  /** Sending the email completes task 3 and the order, recording its three tasks. */
  lemma OrderLastStep(id: string, input: string, out1: Option<string>, out2: Option<string>, out3: Option<string>)
    ensures var wf := NewInstance(id, "OrderProcess", input);
            var t1 := Task(1, id, "ValidateOrder", Completed, None, Some(input), None);
            var t2 := Task(2, id, "DeductMoney", Completed, None, out1, None);
            var t3 := Task(3, id, "SendEmail", Pending, None, out2, None);
            var logs := [LogFor(t1, TaskStarted(1, 0)), LogFor(t1, TaskCompleted(1, 0)),
                         LogFor(t2, TaskStarted(2, 0)), LogFor(t2, TaskCompleted(2, 0))];
            TaskExecuted(Store([wf], [t1, t2, t3], logs, {}), AppDefinitions(), DefaultMaxRetries, t3, Succeeded(out3))
            == Store([wf.(status := WorkflowCompleted)], [t1, t2, t3.(status := Completed)],
                     logs + [LogFor(t3, TaskStarted(3, 0)), LogFor(t3, TaskCompleted(3, 0)),
                             ActivityLog(id, None, WorkflowCompletion("OrderProcess", 3))], {})
  {
    assert StepIndex(OrderProcess().taskNames, "SendEmail") == 2;
  }

  /**
   * A first order step whose function keeps failing, under the default of
   * three retries: the first failure queues it again with retry count 1 and
   * a 2s backoff; the failure at retry count 3 fails the task and the order.
   */
  lemma OrderFailsAfterThreeRetries(id: string, input: string)
    ensures var wf := NewInstance(id, "OrderProcess", input);
            var t1 := Task(1, id, "ValidateOrder", Pending, None, Some(input), None);
            TaskExecuted(Store([wf], [t1], [], {}), AppDefinitions(), DefaultMaxRetries, t1, Errored)
            == Store([wf], [t1.(retryCount := Some(1))],
                     [LogFor(t1, TaskStarted(1, 0)), LogFor(t1, TaskRetry(1, 1, 2 * Second))], {})
    ensures var wf := NewInstance(id, "OrderProcess", input);
            var t1 := Task(1, id, "ValidateOrder", Pending, Some(3), Some(input), None);
            TaskExecuted(Store([wf], [t1], [], {}), AppDefinitions(), DefaultMaxRetries, t1, Errored)
            == Store([wf.(status := WorkflowFailed)], [t1.(status := Failed)],
                     [LogFor(t1, TaskStarted(1, 3)), LogFor(t1, TaskFailed(1, 3))], {})
  {
  }
}
