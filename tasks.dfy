/** `TenantTaskService`: tasks of the tenant database, created under the context tenant and
    updated field by field. */
module Tasks {
  import opened Common
  import opened Exceptions

  const TenantRequiredMessage := "Tenant ID is required"

  /** A task row; every field but the id and tenant is nullable. */
  datatype Task = Task(taskId: string, tenantId: string, projectId: Option<string>, title: Option<string>,
                       description: Option<string>, assignedTo: Option<string>, status: Option<string>, dueDate: Option<int>)

  datatype TaskRequest = TaskRequest(projectId: Option<string>, title: Option<string>, description: Option<string>,
                                     assignedTo: Option<string>, status: Option<string>, dueDate: Option<int>)

  const TaskNotFoundPrefix := "Task not found: "

  function TaskNotFoundMessage(taskId: string): string { TaskNotFoundPrefix + taskId }

  function Overwrite<T>(current: Option<T>, given: Option<T>): Option<T> {
    if given.Some? then given else current
  }

  /** The fields `updateTask` sets: each one the request gives, the others kept. */
  function Patched(task: Task, request: TaskRequest): Task {
    task.(projectId := Overwrite(task.projectId, request.projectId), title := Overwrite(task.title, request.title),
          description := Overwrite(task.description, request.description),
          assignedTo := Overwrite(task.assignedTo, request.assignedTo), status := Overwrite(task.status, request.status),
          dueDate := Overwrite(task.dueDate, request.dueDate))
  }

  class TaskStore {
    var tasks: map<string, Task>

    constructor()
      ensures tasks == map[]
    {
      tasks := map[];
    }

    /** `createTask`: only a missing context tenant is refused (an empty one is not); the new entry
        is stored under the fresh id with the context tenant stamped on it. */
    method CreateTask(context: Option<string>, request: TaskRequest, newTaskId: string)
      returns (r: Result<Task, ServiceException>)
      requires newTaskId !in tasks
      modifies this
      ensures context.None? ==> r == Err(IllegalState(Some(TenantRequiredMessage))) && tasks == old(tasks)
      ensures context.Some? ==> r.Ok? && r.value.taskId == newTaskId && r.value.tenantId == context.value
                                && tasks == old(tasks)[newTaskId := r.value]
                                && r.value == Patched(Task(newTaskId, context.value, None, None, None, None, None, None), request)
    {
      if context.None? {
        return Err(IllegalState(Some(TenantRequiredMessage)));
      }
      var task := Task(newTaskId, context.value, request.projectId, request.title, request.description,
                       request.assignedTo, request.status, request.dueDate);
      tasks := tasks[newTaskId := task];
      return Ok(task);
    }

    /** `getTask`. */
    function GetTask(taskId: string): (r: Result<Task, ServiceException>)
      reads this
      ensures r.Ok? <==> taskId in tasks
      ensures r.Ok? ==> r.value == tasks[taskId]
      ensures r.Err? ==> r.error == IllegalArgument(Some(TaskNotFoundMessage(taskId)))
    {
      if taskId in tasks then Ok(tasks[taskId]) else Err(IllegalArgument(Some(TaskNotFoundMessage(taskId))))
    }

    /** `updateTask`: overwrites only the fields the request gives. */
    method UpdateTask(taskId: string, request: TaskRequest) returns (r: Result<Task, ServiceException>)
      modifies this
      ensures taskId !in old(tasks) ==> r == Err(IllegalArgument(Some(TaskNotFoundMessage(taskId)))) && tasks == old(tasks)
      ensures taskId in old(tasks) ==> r == Ok(Patched(old(tasks)[taskId], request)) && tasks == old(tasks)[taskId := r.value]
    {
      if taskId !in tasks {
        return Err(IllegalArgument(Some(TaskNotFoundMessage(taskId))));
      }
      var task := tasks[taskId];
      if request.projectId.Some? { task := task.(projectId := request.projectId); }
      if request.title.Some? { task := task.(title := request.title); }
      if request.description.Some? { task := task.(description := request.description); }
      if request.assignedTo.Some? { task := task.(assignedTo := request.assignedTo); }
      if request.status.Some? { task := task.(status := request.status); }
      if request.dueDate.Some? { task := task.(dueDate := request.dueDate); }
      tasks := tasks[taskId := task];
      return Ok(task);
    }

    /** `deleteTask`: an unknown id is refused and nothing is removed. */
    method DeleteTask(taskId: string) returns (failure: Option<ServiceException>)
      modifies this
      ensures taskId !in old(tasks) ==> failure == Some(IllegalArgument(Some(TaskNotFoundMessage(taskId)))) && tasks == old(tasks)
      ensures taskId in old(tasks) ==> failure.None? && tasks == old(tasks) - {taskId}
    {
      if taskId !in tasks {
        return Some(IllegalArgument(Some(TaskNotFoundMessage(taskId))));
      }
      tasks := tasks - {taskId};
      return None;
    }
  }

  // ----------------------------------------------------------------- lemmas

  /** An update keeps a task's id and tenant, and keeps every field the request leaves null. */
  lemma PatchKeepsWhatIsNotGiven(task: Task, request: TaskRequest)
    ensures var t := Patched(task, request);
            && t.taskId == task.taskId && t.tenantId == task.tenantId
            && (request.projectId.None? ==> t.projectId == task.projectId)
            && (request.title.None? ==> t.title == task.title)
            && (request.description.None? ==> t.description == task.description)
            && (request.assignedTo.None? ==> t.assignedTo == task.assignedTo)
            && (request.status.None? ==> t.status == task.status)
            && (request.dueDate.None? ==> t.dueDate == task.dueDate)
            && (request.title.Some? ==> t.title == request.title)
  {
  }

  /** Applying the same update twice is applying it once, and an empty update changes nothing. */
  lemma PatchIdempotent(task: Task, request: TaskRequest)
    ensures Patched(Patched(task, request), request) == Patched(task, request)
    ensures Patched(task, TaskRequest(None, None, None, None, None, None)) == task
  {
  }

  /** A task created without a tenant is refused with the message the exception handler maps
      to 403, since it mentions "Tenant ID". */
  lemma MissingTenantIsForbidden()
    ensures StatusOf(IllegalState(Some(TenantRequiredMessage))) == 403
  {
    assert TenantRequiredMessage[..9] == "Tenant ID";
    ContainsAt(TenantRequiredMessage, "Tenant ID", 0);
  }
}
