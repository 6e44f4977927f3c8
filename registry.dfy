/**
 * The workflow registry and its fluent builder: named workflow definitions,
 * each an ordered list of task names with a function registered per name.
 */
module Registry {
  import opened Common

  /** Stands for a Go task function value; the model never calls it. */
  type TaskFunc = nat

  datatype WorkflowDefinition = WorkflowDefinition(
    name: string,
    taskNames: seq<string>,
    taskFuncs: map<string, TaskFunc>)

  datatype RegisterError = EmptyName | NoTasks | AlreadyRegistered(name: string)

  function Message(e: RegisterError): string {
    match e
    case EmptyName => "workflow name cannot be empty"
    case NoTasks => "workflow must have at least one task"
    case AlreadyRegistered(name) => "workflow already registered: " + name
  }

  /**
   * What registering `def` does to the definitions map: the three checks in
   * their order (name, tasks, duplicate), then one new entry.
   */
  function Admit(defs: map<string, WorkflowDefinition>, def: WorkflowDefinition)
    : (r: Result<map<string, WorkflowDefinition>, RegisterError>)
    ensures def.name == "" ==> r == Failure(EmptyName)
    ensures def.name != "" && def.taskNames == [] ==> r == Failure(NoTasks)
    ensures (def.name != "" && def.taskNames != [] && def.name in defs) ==>
              r == Failure(AlreadyRegistered(def.name))
    ensures r.Success? <==> def.name != "" && def.taskNames != [] && def.name !in defs
    ensures r.Success? ==> r.value.Keys == defs.Keys + {def.name} && r.value[def.name] == def
    ensures r.Success? ==> forall n :: n in defs ==> r.value[n] == defs[n]
  {
    if def.name == "" then Failure(EmptyName)
    else if |def.taskNames| == 0 then Failure(NoTasks)
    else if def.name in defs then Failure(AlreadyRegistered(def.name))
    else Success(defs[def.name := def])
  }

  /** The definition registered under `name`, if any. */
  function Lookup(defs: map<string, WorkflowDefinition>, name: string): (r: Option<WorkflowDefinition>)
    ensures r.Some? <==> name in defs
    ensures r.Some? ==> r.value == defs[name]
  {
    if name in defs then Some(defs[name]) else None
  }

  /** The function registered for `taskName` in workflow `workflowName`, if any. */
  function TaskFuncOf(defs: map<string, WorkflowDefinition>, workflowName: string, taskName: string)
    : (r: Option<TaskFunc>)
    ensures r.Some? <==> workflowName in defs && taskName in defs[workflowName].taskFuncs
    ensures r.Some? ==> r.value == defs[workflowName].taskFuncs[taskName]
  {
    match Lookup(defs, workflowName)
    case None => None
    case Some(def) => if taskName in def.taskFuncs then Some(def.taskFuncs[taskName]) else None
  }

  class WorkflowRegistry {
    var definitions: map<string, WorkflowDefinition>

    constructor ()
      ensures definitions == map[]
    {
      definitions := map[];
    }

    method Register(def: WorkflowDefinition) returns (err: Option<RegisterError>)
      modifies this
      ensures err.None? <==> Admit(old(definitions), def).Success?
      ensures err.None? ==> definitions == Admit(old(definitions), def).value
      ensures err.Some? ==> Admit(old(definitions), def) == Failure(err.value)
      ensures err.Some? ==> definitions == old(definitions)
    {
      if def.name == "" {
        return Some(EmptyName);
      }
      if |def.taskNames| == 0 {
        return Some(NoTasks);
      }
      if def.name in definitions {
        return Some(AlreadyRegistered(def.name));
      }
      definitions := definitions[def.name := def];
      return None;
    }

    function GetDefinition(name: string): (r: Option<WorkflowDefinition>)
      reads this
      ensures r.Some? <==> name in definitions
      ensures r.Some? ==> r.value == definitions[name]
    {
      Lookup(definitions, name)
    }

    function GetTaskFunc(workflowName: string, taskName: string): (r: Option<TaskFunc>)
      reads this
      ensures r.Some? <==> workflowName in definitions && taskName in definitions[workflowName].taskFuncs
      ensures r.Some? ==> r.value == definitions[workflowName].taskFuncs[taskName]
    {
      TaskFuncOf(definitions, workflowName, taskName)
    }

    /** Every registered name once, in the map's (unspecified) iteration order. */
    method ListWorkflows() returns (names: seq<string>)
      ensures |names| == |definitions|
      ensures forall n :: n in names <==> n in definitions
      ensures Distinct(names)
    {
      names := [];
      var remaining := definitions.Keys;
      while remaining != {}
        invariant remaining <= definitions.Keys
        invariant forall n :: n in names <==> n in definitions && n !in remaining
        invariant Distinct(names)
        invariant |names| + |remaining| == |definitions.Keys|
        decreases |remaining|
      {
        var name :| name in remaining;
        names := names + [name];
        remaining := remaining - {name};
      }
      assert |definitions.Keys| == |definitions|;
    }

    method NewWorkflow(name: string) returns (b: WorkflowBuilder)
      ensures fresh(b)
      ensures b.registry == this && b.name == name
      ensures b.taskNames == [] && b.taskFuncs == map[]
    {
      b := new WorkflowBuilder(this, name);
    }
  }

  class WorkflowBuilder {
    const registry: WorkflowRegistry
    const name: string
    var taskNames: seq<string>
    var taskFuncs: map<string, TaskFunc>

    constructor (registry: WorkflowRegistry, name: string)
      ensures this.registry == registry && this.name == name
      ensures taskNames == [] && taskFuncs == map[]
    {
      this.registry := registry;
      this.name := name;
      taskNames := [];
      taskFuncs := map[];
    }

    /** The definition `Build` would register now. */
    function Definition(): WorkflowDefinition
      reads this
    {
      WorkflowDefinition(name, taskNames, taskFuncs)
    }

    /** Appends the name (duplicates kept) and (re)binds its function; returns the builder. */
    method AddTask(taskName: string, fn: TaskFunc) returns (b: WorkflowBuilder)
      modifies this
      ensures b == this
      ensures taskNames == old(taskNames) + [taskName]
      ensures taskFuncs.Keys == old(taskFuncs.Keys) + {taskName} && taskFuncs[taskName] == fn
      ensures forall t :: t in old(taskFuncs) && t != taskName ==> taskFuncs[t] == old(taskFuncs)[t]
    {
      taskNames := taskNames + [taskName];
      taskFuncs := taskFuncs[taskName := fn];
      b := this;
    }

    method Build() returns (err: Option<RegisterError>)
      modifies registry
      ensures err.None? <==> Admit(old(registry.definitions), Definition()).Success?
      ensures err.None? ==> registry.definitions == Admit(old(registry.definitions), Definition()).value
      ensures err.Some? ==> Admit(old(registry.definitions), Definition()) == Failure(err.value)
      ensures err.Some? ==> registry.definitions == old(registry.definitions)
    {
      err := registry.Register(WorkflowDefinition(name, taskNames, taskFuncs));
    }

    /** A Go panic is returned as its message; `None` means no panic. */
    method MustBuild() returns (panicMessage: Option<string>)
      modifies registry
      ensures panicMessage.None? <==> Admit(old(registry.definitions), Definition()).Success?
      ensures panicMessage.None? ==> registry.definitions == Admit(old(registry.definitions), Definition()).value
      ensures panicMessage.Some? ==> registry.definitions == old(registry.definitions)
      ensures panicMessage.Some? ==>
              panicMessage.value == "failed to build workflow: "
                                      + Message(Admit(old(registry.definitions), Definition()).error)
    {
      var err := Build();
      if err.Some? {
        return Some("failed to build workflow: " + Message(err.value));
      }
      return None;
    }
  }

  /** Building twice from the same builder: the second registration is a duplicate. */
  lemma BuildTwiceFails(defs: map<string, WorkflowDefinition>, def: WorkflowDefinition)
    requires Admit(defs, def).Success?
    ensures Admit(Admit(defs, def).value, def) == Failure(AlreadyRegistered(def.name))
  {
  }

  /** After a successful registration the definition is found under its name. */
  lemma RegisteredIsFound(defs: map<string, WorkflowDefinition>, def: WorkflowDefinition)
    requires Admit(defs, def).Success?
    ensures Lookup(Admit(defs, def).value, def.name) == Some(def)
    ensures forall n :: n != def.name ==> Lookup(Admit(defs, def).value, n) == Lookup(defs, n)
  {
  }
}
