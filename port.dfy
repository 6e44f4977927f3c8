/**
 * The repository the engine writes through, as an in-memory store: the
 * workflow-instance table, the task table (auto-increment ids starting at 1)
 * and the append-only activity log. Writes the database may reject are named
 * in `faults`, which the environment fixes and no operation changes.
 */
module Port {
  import opened Common

  datatype TaskStatus = Pending | InProgress | Retrying | Failed | Completed {
    function Name(): string {
      match this
      case Pending => "PENDING"
      case InProgress => "IN_PROGRESS"
      case Retrying => "RETRYING"
      case Failed => "FAILED"
      case Completed => "COMPLETED"
    }
  }

  datatype WorkflowStatus = WorkflowPending | WorkflowCompleted | WorkflowFailed {
    function Name(): string {
      match this
      case WorkflowPending => "PENDING"
      case WorkflowCompleted => "COMPLETED"
      case WorkflowFailed => "FAILED"
    }
  }

  /** A task row; payloads are opaque JSON text, `None` for SQL NULL. */
  datatype Task = Task(
    id: int,
    workflowInstanceId: string,
    taskName: string,
    status: TaskStatus,
    retryCount: Option<int>,
    inputPayload: Option<string>,
    outputPayload: Option<string>)

  datatype WorkflowInstance = WorkflowInstance(
    id: string,
    workflowName: string,
    status: WorkflowStatus,
    currentInput: Option<string>)

  /** The event type of an activity-log row with the key fields of its details. */
  datatype Event =
    | TaskStarted(taskId: int, retryCount: int)
    | TaskFailed(taskId: int, retryCount: int)
    | TaskRetry(taskId: int, retryCount: int, backoff: int)
    | TaskCompleted(taskId: int, retryCount: int)
    | WorkflowCompletion(workflowName: string, totalTasks: nat)
  {
    function EventType(): string {
      match this
      case TaskStarted(_, _) => "TASK_STARTED"
      case TaskFailed(_, _) => "TASK_FAILED"
      case TaskRetry(_, _, _) => "TASK_RETRY"
      case TaskCompleted(_, _) => "TASK_COMPLETED"
      case WorkflowCompletion(_, _) => "WORKFLOW_COMPLETED"
    }
  }

  datatype ActivityLog = ActivityLog(workflowInstanceId: string, taskName: Option<string>, event: Event)

  /** A write the database rejects. */
  datatype Fault = CreateWorkflowFault | CreateTaskFault | RetryCountFault

  datatype QueryError = NegativeBound

  datatype Store = Store(
    workflows: seq<WorkflowInstance>,
    tasks: seq<Task>,
    logs: seq<ActivityLog>,
    faults: set<Fault>)

  /** The store after a write, and whether the write succeeded. */
  datatype Write = Write(store: Store, ok: bool)

  /** Primary keys: workflow ids are unique, task ids follow insertion order from 1. */
  ghost predicate Valid(s: Store) {
    && (forall i, j :: 0 <= i < j < |s.workflows| ==> s.workflows[i].id != s.workflows[j].id)
    && (forall i :: 0 <= i < |s.tasks| ==> s.tasks[i].id == i + 1)
  }

  /** The row with primary key `id`, if there is one. */
  function FindWorkflow(ws: seq<WorkflowInstance>, id: string): (r: Option<WorkflowInstance>)
    ensures r.Some? <==> exists i :: 0 <= i < |ws| && ws[i].id == id
    ensures r.Some? ==> r.value in ws && r.value.id == id
  {
    if ws == [] then None
    else if ws[0].id == id then Some(ws[0])
    else FindWorkflow(ws[1..], id)
  }

  /** Inserting a workflow fails on a rejected write or a duplicate primary key. */
  function InsertWorkflow(s: Store, wf: WorkflowInstance): Write {
    if CreateWorkflowFault in s.faults || FindWorkflow(s.workflows, wf.id).Some? then Write(s, false)
    else Write(s.(workflows := s.workflows + [wf]), true)
  }

  /** The id the next inserted task receives. */
  function NextTaskId(s: Store): int {
    |s.tasks| + 1
  }

  /**
   * Inserting a task writes only its workflow, name, status and input; the
   * row gets the next auto-increment id and no retry count or output.
   */
  function InsertTask(s: Store, t: Task): Write {
    if CreateTaskFault in s.faults then Write(s, false)
    else Write(s.(tasks := s.tasks + [t.(id := NextTaskId(s), retryCount := None, outputPayload := None)]), true)
  }

  /** `UPDATE ... SET status WHERE id = ?`: no matching row changes nothing. */
  function SetWorkflowStatus(s: Store, id: string, status: WorkflowStatus): Store {
    s.(workflows := seq(|s.workflows|, i requires 0 <= i < |s.workflows| =>
         if s.workflows[i].id == id then s.workflows[i].(status := status) else s.workflows[i]))
  }

  function SetTaskStatus(s: Store, id: int, status: TaskStatus): Store {
    s.(tasks := seq(|s.tasks|, i requires 0 <= i < |s.tasks| =>
         if s.tasks[i].id == id then s.tasks[i].(status := status) else s.tasks[i]))
  }

  function SetTaskRetryCount(s: Store, id: int, retryCount: int): Write {
    if RetryCountFault in s.faults then Write(s, false)
    else Write(s.(tasks := seq(|s.tasks|, i requires 0 <= i < |s.tasks| =>
                    if s.tasks[i].id == id then s.tasks[i].(retryCount := Some(retryCount)) else s.tasks[i])),
               true)
  }

  function AppendLog(s: Store, entry: ActivityLog): Store {
    s.(logs := s.logs + [entry])
  }

  function Reversed<T>(s: seq<T>): (r: seq<T>)
    ensures |r| == |s|
    ensures forall k :: 0 <= k < |s| ==> r[k] == s[|s| - 1 - k]
  {
    if s == [] then [] else Reversed(s[1..]) + [s[0]]
  }

  /** `ORDER BY created_at DESC LIMIT limit OFFSET offset`, newest first. */
  function PageOfWorkflows(s: Store, limit: int, offset: int): (r: Result<seq<WorkflowInstance>, QueryError>)
    ensures r.Failure? <==> limit < 0 || offset < 0
    ensures r.Success? ==> |r.value| <= limit
    ensures r.Success? ==> |r.value| == (if offset >= |s.workflows| then 0
                                         else if offset + limit <= |s.workflows| then limit
                                         else |s.workflows| - offset)
    ensures r.Success? ==> forall k :: 0 <= k < |r.value| ==>
              offset + k < |s.workflows| && r.value[k] == s.workflows[|s.workflows| - 1 - (offset + k)]
  {
    if limit < 0 || offset < 0 then Failure(NegativeBound)
    else
      var newest := Reversed(s.workflows);
      var lo := if offset < |newest| then offset else |newest|;
      var hi := if offset + limit < |newest| then offset + limit else |newest|;
      Success(newest[lo..hi])
  }

  /**
   * `WHERE workflow_instance_id = ? ORDER BY id ASC`: every row of the
   * workflow exactly as often as it is stored, none of another, and in
   * ascending id order whenever the table is.
   */
  function TasksOf(ts: seq<Task>, workflowId: string): (r: seq<Task>)
    ensures forall t :: t in r <==> t in ts && t.workflowInstanceId == workflowId
  {
    if ts == [] then []
    else (if ts[0].workflowInstanceId == workflowId then [ts[0]] else []) + TasksOf(ts[1..], workflowId)
  }

  /** Each row of the workflow is listed exactly as often as it is stored. */
  lemma {:induction false} TasksOfCounts(ts: seq<Task>, workflowId: string)
    ensures forall t :: multiset(TasksOf(ts, workflowId))[t]
                        == if t.workflowInstanceId == workflowId then multiset(ts)[t] else 0
  {
    if ts != [] {
      TasksOfCounts(ts[1..], workflowId);
      assert ts == [ts[0]] + ts[1..];
    }
  }

  predicate IdsAscending(ts: seq<Task>) {
    forall i, j :: 0 <= i < j < |ts| ==> ts[i].id < ts[j].id
  }

  /** Rows stored in ascending id order are listed in ascending id order. */
  lemma {:induction false} TasksOfAscending(ts: seq<Task>, workflowId: string)
    requires IdsAscending(ts)
    ensures IdsAscending(TasksOf(ts, workflowId))
  {
    if ts != [] {
      var tail := ts[1..];
      assert IdsAscending(tail) by {
        forall i, j | 0 <= i < j < |tail| ensures tail[i].id < tail[j].id {
          assert tail[i] == ts[i + 1] && tail[j] == ts[j + 1];
        }
      }
      TasksOfAscending(tail, workflowId);
      var rest := TasksOf(tail, workflowId);
      if ts[0].workflowInstanceId == workflowId {
        var r := [ts[0]] + rest;
        forall i, j | 0 <= i < j < |r| ensures r[i].id < r[j].id {
          assert r[j] == rest[j - 1];
          assert rest[j - 1] in tail;
          if i > 0 {
            assert r[i] == rest[i - 1];
          } else {
            var k :| 0 <= k < |tail| && tail[k] == rest[j - 1];
            assert ts[k + 1] == tail[k];
          }
        }
        assert TasksOf(ts, workflowId) == r;
      } else {
        assert TasksOf(ts, workflowId) == rest;
      }
    }
  }

  /** In a store with sequential task ids, a workflow's tasks are listed by ascending id. */
  lemma TasksListedById(s: Store, workflowId: string)
    requires Valid(s)
    ensures IdsAscending(TasksOf(s.tasks, workflowId))
  {
    TasksOfAscending(s.tasks, workflowId);
  }

  /** Filtering distributes over concatenation, so rows keep their stored order. */
  lemma {:induction false} TasksOfAppend(a: seq<Task>, b: seq<Task>, workflowId: string)
    ensures TasksOf(a + b, workflowId) == TasksOf(a, workflowId) + TasksOf(b, workflowId)
  {
    if a != [] {
      assert (a + b)[0] == a[0] && (a + b)[1..] == a[1..] + b;
      TasksOfAppend(a[1..], b, workflowId);
      var head := if a[0].workflowInstanceId == workflowId then [a[0]] else [];
      calc {
        TasksOf(a + b, workflowId);
        head + TasksOf(a[1..] + b, workflowId);
        head + (TasksOf(a[1..], workflowId) + TasksOf(b, workflowId));
        (head + TasksOf(a[1..], workflowId)) + TasksOf(b, workflowId);
        TasksOf(a, workflowId) + TasksOf(b, workflowId);
      }
    } else {
      assert a + b == b;
    }
  }

  /**
   * `WHERE workflow_instance_id = ? ORDER BY created_at ASC`, with the order
   * of insertion standing for the creation time: every entry of the
   * workflow exactly as often as it is stored, none of another.
   */
  function LogsOf(ls: seq<ActivityLog>, workflowId: string): (r: seq<ActivityLog>)
    ensures forall l :: l in r <==> l in ls && l.workflowInstanceId == workflowId
  {
    if ls == [] then []
    else (if ls[0].workflowInstanceId == workflowId then [ls[0]] else []) + LogsOf(ls[1..], workflowId)
  }

  /** Each entry of the workflow is listed exactly as often as it is stored. */
  lemma {:induction false} LogsOfCounts(ls: seq<ActivityLog>, workflowId: string)
    ensures forall l :: multiset(LogsOf(ls, workflowId))[l]
                        == if l.workflowInstanceId == workflowId then multiset(ls)[l] else 0
  {
    if ls != [] {
      LogsOfCounts(ls[1..], workflowId);
      assert ls == [ls[0]] + ls[1..];
    }
  }

  /** Filtering distributes over concatenation, so older entries come first. */
  lemma {:induction false} LogsOfAppend(a: seq<ActivityLog>, b: seq<ActivityLog>, workflowId: string)
    ensures LogsOf(a + b, workflowId) == LogsOf(a, workflowId) + LogsOf(b, workflowId)
  {
    if a != [] {
      assert (a + b)[0] == a[0] && (a + b)[1..] == a[1..] + b;
      LogsOfAppend(a[1..], b, workflowId);
      var head := if a[0].workflowInstanceId == workflowId then [a[0]] else [];
      calc {
        LogsOf(a + b, workflowId);
        head + LogsOf(a[1..] + b, workflowId);
        head + (LogsOf(a[1..], workflowId) + LogsOf(b, workflowId));
        (head + LogsOf(a[1..], workflowId)) + LogsOf(b, workflowId);
        LogsOf(a, workflowId) + LogsOf(b, workflowId);
      }
    } else {
      assert a + b == b;
    }
  }

  /** A newly appended entry of the workflow is listed last. */
  lemma AppendedLogListedLast(ls: seq<ActivityLog>, entry: ActivityLog)
    ensures LogsOf(ls + [entry], entry.workflowInstanceId) == LogsOf(ls, entry.workflowInstanceId) + [entry]
  {
    LogsOfAppend(ls, [entry], entry.workflowInstanceId);
    assert [entry][1..] == [];
  }

  /** The count agrees with the list: a page as long as the table, from offset 0, holds every row. */
  lemma CountMatchesFullPage(s: Store)
    ensures PageOfWorkflows(s, |s.workflows|, 0).Success?
    ensures |PageOfWorkflows(s, |s.workflows|, 0).value| == |s.workflows|
    ensures forall w :: w in s.workflows <==> w in PageOfWorkflows(s, |s.workflows|, 0).value
  {
    var page := PageOfWorkflows(s, |s.workflows|, 0).value;
    forall w | w in s.workflows ensures w in page {
      var i :| 0 <= i < |s.workflows| && s.workflows[i] == w;
      assert page[|s.workflows| - 1 - i] == w;
    }
  }

  /** The repository object the service and the worker share. */
  class Repository {
    var workflows: seq<WorkflowInstance>
    var tasks: seq<Task>
    var logs: seq<ActivityLog>
    const faults: set<Fault>

    constructor (faults: set<Fault>)
      ensures State() == Store([], [], [], faults)
    {
      workflows, tasks, logs := [], [], [];
      this.faults := faults;
    }

    function State(): Store
      reads this
    {
      Store(workflows, tasks, logs, faults)
    }

    method CreateWorkflow(wf: WorkflowInstance) returns (ok: bool)
      modifies this
      ensures Write(State(), ok) == InsertWorkflow(old(State()), wf)
    {
      ok := !(CreateWorkflowFault in faults || FindWorkflow(workflows, wf.id).Some?);
      if ok {
        workflows := workflows + [wf];
      }
    }

    method CreateTask(t: Task) returns (ok: bool)
      modifies this
      ensures Write(State(), ok) == InsertTask(old(State()), t)
    {
      ok := CreateTaskFault !in faults;
      if ok {
        tasks := tasks + [t.(id := |tasks| + 1, retryCount := None, outputPayload := None)];
      }
    }

    method UpdateWorkflowStatus(id: string, status: WorkflowStatus)
      modifies this
      ensures State() == SetWorkflowStatus(old(State()), id, status)
    {
      workflows := SetWorkflowStatus(State(), id, status).workflows;
    }

    method UpdateTaskStatus(id: int, status: TaskStatus)
      modifies this
      ensures State() == SetTaskStatus(old(State()), id, status)
    {
      tasks := SetTaskStatus(State(), id, status).tasks;
    }

    method UpdateTaskRetryCount(id: int, retryCount: int) returns (ok: bool)
      modifies this
      ensures Write(State(), ok) == SetTaskRetryCount(old(State()), id, retryCount)
    {
      var w := SetTaskRetryCount(State(), id, retryCount);
      tasks, ok := w.store.tasks, w.ok;
    }

    method CreateActivityLog(entry: ActivityLog)
      modifies this
      ensures State() == AppendLog(old(State()), entry)
    {
      logs := logs + [entry];
    }

    function GetWorkflowByID(id: string): (r: Option<WorkflowInstance>)
      reads this
      ensures r.Some? <==> exists i :: 0 <= i < |workflows| && workflows[i].id == id
      ensures r.Some? ==> r.value in workflows && r.value.id == id
    {
      FindWorkflow(workflows, id)
    }

    function ListWorkflows(limit: int, offset: int): (r: Result<seq<WorkflowInstance>, QueryError>)
      reads this
      ensures r.Failure? <==> limit < 0 || offset < 0
      ensures r.Success? ==> |r.value| == (if offset >= |workflows| then 0
                                           else if offset + limit <= |workflows| then limit
                                           else |workflows| - offset)
      ensures r.Success? ==> forall k :: 0 <= k < |r.value| ==>
                offset + k < |workflows| && r.value[k] == workflows[|workflows| - 1 - (offset + k)]
    {
      PageOfWorkflows(State(), limit, offset)
    }

    function CountWorkflows(): (r: nat)
      reads this
      ensures r == |workflows|
    {
      |workflows|
    }

    function GetTasksByWorkflowID(workflowId: string): (r: seq<Task>)
      reads this
      ensures r == TasksOf(tasks, workflowId)
    {
      TasksOf(tasks, workflowId)
    }

    function GetActivityLogsByWorkflowID(workflowId: string): (r: seq<ActivityLog>)
      reads this
      ensures r == LogsOf(logs, workflowId)
    {
      LogsOf(logs, workflowId)
    }
  }
}
