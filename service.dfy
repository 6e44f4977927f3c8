/**
 * The workflow service: starting a workflow instance (one PENDING workflow
 * row and its PENDING first task), and queries that delegate to the
 * registry or the repository.
 */
module Service {
  import opened Common
  import opened Port
  import opened Registry

  /** `UnknownWorkflow(name)` is the error `unknown workflow: <name>`. */
  datatype StartError = UnknownWorkflow(name: string) | WriteRejected

  /** The store after `StartNewWorkflow`, and the created workflow or the error. */
  datatype StartOutcome = StartOutcome(store: Store, result: Result<WorkflowInstance, StartError>)

  /** The definition can start a workflow: it is registered and lists at least one task. */
  predicate Startable(defs: map<string, WorkflowDefinition>, name: string) {
    name in defs && defs[name].taskNames != []
  }

  /** The workflow row `StartNewWorkflow` builds; `input` is the marshalled input payload. */
  function NewInstance(newId: string, name: string, input: string): WorkflowInstance {
    WorkflowInstance(newId, name, WorkflowPending, Some(input))
  }

  /** The first task row, before the database assigns its id. */
  function FirstTask(def: WorkflowDefinition, newId: string, input: string): Task
    requires def.taskNames != []
  {
    Task(0, newId, def.taskNames[0], Pending, None, Some(input), None)
  }

  /**
   * `StartNewWorkflow` with the generated id `newId`: the definition check
   * comes before any write, then the workflow row, then the first task.
   */
  function WorkflowStarted(s: Store, defs: map<string, WorkflowDefinition>, name: string, input: string,
                           newId: string): (r: StartOutcome)
    ensures r.store.faults == s.faults && r.store.logs == s.logs
    ensures !Startable(defs, name) ==> r == StartOutcome(s, Failure(UnknownWorkflow(name)))
    ensures r.result.Success? <==>
              && Startable(defs, name)
              && CreateWorkflowFault !in s.faults && FindWorkflow(s.workflows, newId).None?
              && CreateTaskFault !in s.faults
    ensures Startable(defs, name) && !InsertWorkflow(s, NewInstance(newId, name, input)).ok ==>
              r == StartOutcome(s, Failure(WriteRejected))
    ensures Startable(defs, name) && InsertWorkflow(s, NewInstance(newId, name, input)).ok
              && CreateTaskFault in s.faults ==>
              && r.result == Failure(WriteRejected)
              && r.store == s.(workflows := s.workflows + [NewInstance(newId, name, input)])
    ensures r.result.Success? ==>
              && r.result.value.id == newId && r.result.value.workflowName == name
              && r.result.value.status == WorkflowPending && r.result.value.currentInput == Some(input)
              && r.store.workflows == s.workflows + [r.result.value]
              && r.store.tasks == s.tasks + [Task(NextTaskId(s), newId, defs[name].taskNames[0],
                                                  Pending, None, r.result.value.currentInput, None)]
  {
    var wf := NewInstance(newId, name, input);
    match Lookup(defs, name)
    case None => StartOutcome(s, Failure(UnknownWorkflow(name)))
    case Some(def) =>
      if |def.taskNames| == 0 then StartOutcome(s, Failure(UnknownWorkflow(name)))
      else
        var w := InsertWorkflow(s, wf);
        if !w.ok then StartOutcome(s, Failure(WriteRejected))
        else
          var t := InsertTask(w.store, FirstTask(def, newId, input));
          if !t.ok then StartOutcome(w.store, Failure(WriteRejected))
          else StartOutcome(t.store, Success(wf))
  }

  class WorkflowService {
    const repo: Repository
    const registry: WorkflowRegistry

    constructor (repo: Repository, registry: WorkflowRegistry)
      ensures this.repo == repo && this.registry == registry
    {
      this.repo := repo;
      this.registry := registry;
    }

    /** Every registered workflow name once. */
    method ListAvailableWorkflows() returns (names: seq<string>)
      ensures |names| == |registry.definitions|
      ensures forall n :: n in names <==> n in registry.definitions
      ensures Distinct(names)
    {
      names := registry.ListWorkflows();
    }

    /** `newId` stands for the generated UUID and `input` for the marshalled input payload. */
    method StartNewWorkflow(name: string, input: string, newId: string)
      returns (result: Result<WorkflowInstance, StartError>)
      modifies repo
      ensures StartOutcome(repo.State(), result)
              == WorkflowStarted(old(repo.State()), registry.definitions, name, input, newId)
    {
      var wf := NewInstance(newId, name, input);
      var def := registry.GetDefinition(name);
      if def.None? || |def.value.taskNames| == 0 {
        return Failure(UnknownWorkflow(name));
      }
      var firstTask := FirstTask(def.value, newId, input);
      var ok := repo.CreateWorkflow(wf);
      if !ok {
        return Failure(WriteRejected);
      }
      ok := repo.CreateTask(firstTask);
      if !ok {
        return Failure(WriteRejected);
      }
      return Success(wf);
    }

    function ListWorkflows(limit: int, offset: int): (r: Result<seq<WorkflowInstance>, QueryError>)
      reads repo
      ensures r.Failure? <==> limit < 0 || offset < 0
      ensures r.Success? ==> |r.value| == (if offset >= |repo.workflows| then 0
                                           else if offset + limit <= |repo.workflows| then limit
                                           else |repo.workflows| - offset)
      ensures r.Success? ==> forall k :: 0 <= k < |r.value| ==>
                offset + k < |repo.workflows| && r.value[k] == repo.workflows[|repo.workflows| - 1 - (offset + k)]
    {
      repo.ListWorkflows(limit, offset)
    }

    function CountWorkflows(): (r: nat)
      reads repo
      ensures r == |repo.workflows|
    {
      repo.CountWorkflows()
    }

    function GetWorkflowByID(id: string): (r: Option<WorkflowInstance>)
      reads repo
      ensures r.Some? <==> exists i :: 0 <= i < |repo.workflows| && repo.workflows[i].id == id
      ensures r.Some? ==> r.value in repo.workflows && r.value.id == id
    {
      repo.GetWorkflowByID(id)
    }

    function GetTasksByWorkflowID(workflowId: string): (r: seq<Task>)
      reads repo
      ensures r == TasksOf(repo.tasks, workflowId)
    {
      repo.GetTasksByWorkflowID(workflowId)
    }

    function GetActivityLogsByWorkflowID(workflowId: string): (r: seq<ActivityLog>)
      reads repo
      ensures r == LogsOf(repo.logs, workflowId)
    {
      repo.GetActivityLogsByWorkflowID(workflowId)
    }
  }

  /** Starting a workflow keeps the primary keys of the store intact. */
  lemma StartKeepsValid(s: Store, defs: map<string, WorkflowDefinition>, name: string, input: string, newId: string)
    requires Valid(s)
    ensures Valid(WorkflowStarted(s, defs, name, input, newId).store)
  {
    var r := WorkflowStarted(s, defs, name, input, newId);
    if r.store.workflows != s.workflows {
      assert FindWorkflow(s.workflows, newId).None?;
      assert r.store.workflows == s.workflows + [NewInstance(newId, name, input)];
    }
  }

  /**
   * A successful start leaves the new workflow with exactly one task, its
   * first step, whose input is the workflow's input, provided no earlier task
   * row referred to the new id.
   */
  lemma StartedWorkflowHasOnlyFirstTask(s: Store, defs: map<string, WorkflowDefinition>, name: string,
                                        input: string, newId: string)
    requires forall t :: t in s.tasks ==> t.workflowInstanceId != newId
    requires WorkflowStarted(s, defs, name, input, newId).result.Success?
    ensures var r := WorkflowStarted(s, defs, name, input, newId);
            && FindWorkflow(r.store.workflows, newId) == Some(r.result.value)
            && TasksOf(r.store.tasks, newId) == [Task(NextTaskId(s), newId, defs[name].taskNames[0],
                                                     Pending, None, r.result.value.currentInput, None)]
  {
    var r := WorkflowStarted(s, defs, name, input, newId);
    var t := Task(NextTaskId(s), newId, defs[name].taskNames[0], Pending, None, Some(input), None);
    TasksOfAppend(s.tasks, [t], newId);
    TasksOfNone(s.tasks, newId);
    FindWorkflowAppend(s.workflows, r.result.value);
  }

  /**
   * When the workflow row is written but the first task is rejected, the
   * workflow stays PENDING with no task at all: nothing will ever run it.
   */
  lemma RejectedFirstTaskLeavesOrphan(s: Store, defs: map<string, WorkflowDefinition>, name: string,
                                      input: string, newId: string)
    requires forall t :: t in s.tasks ==> t.workflowInstanceId != newId
    requires Startable(defs, name) && CreateWorkflowFault !in s.faults && FindWorkflow(s.workflows, newId).None?
    requires CreateTaskFault in s.faults
    ensures var r := WorkflowStarted(s, defs, name, input, newId);
            && r.result.Failure?
            && FindWorkflow(r.store.workflows, newId) == Some(NewInstance(newId, name, input))
            && TasksOf(r.store.tasks, newId) == []
  {
    TasksOfNone(s.tasks, newId);
    FindWorkflowAppend(s.workflows, NewInstance(newId, name, input));
  }

  lemma {:induction false} TasksOfNone(ts: seq<Task>, workflowId: string)
    requires forall t :: t in ts ==> t.workflowInstanceId != workflowId
    ensures TasksOf(ts, workflowId) == []
  {
    if ts != [] {
      TasksOfNone(ts[1..], workflowId);
    }
  }

  lemma {:induction false} FindWorkflowAppend(ws: seq<WorkflowInstance>, wf: WorkflowInstance)
    requires FindWorkflow(ws, wf.id).None?
    ensures FindWorkflow(ws + [wf], wf.id) == Some(wf)
  {
    if ws != [] {
      assert (ws + [wf])[1..] == ws[1..] + [wf];
      FindWorkflowAppend(ws[1..], wf);
    }
  }
}
