/**
 * The task service (internal/service/task.go): creation defaults, the
 * partial-update merge, the not-found mapping and the list metadata, over
 * the repository.
 */
module TaskService {
  import opened Common
  import opened TaskModel
  import opened Repository

  /** The service's own `ErrTaskNotFound`, or a repository error passed on unchanged. */
  datatype ServiceError = TaskNotFound | Passed(cause: RepoError)

  /** `errors.Is(err, repository.ErrTaskNotFound)` becomes the service's error. */
  function MapNotFound(e: RepoError): (r: ServiceError)
    ensures r == TaskNotFound <==> e == NotFound
    ensures e != NotFound ==> r == Passed(e)
  {
    if e == NotFound then TaskNotFound else Passed(e)
  }

  datatype TaskListResponse = TaskListResponse(data: Slice<Task>, meta: ListMeta)

  /** The task `Create` builds before defaulting: owned by the caller, whatever the request says. */
  function NewTask(userId: int, req: CreateTaskRequest): (t: Task)
    ensures t.userId == userId
    ensures t.title == req.title && t.description == req.description && t.dueDate == req.dueDate
    ensures t.status == req.status && t.priority == req.priority
  {
    Task(0, userId, req.title, req.description, req.status, req.priority, req.dueDate, 0, 0)
  }

  /**
   * `Update`'s merge: a field is overwritten only by a non-empty request
   * value (a present one for the due date).
   */
  function Merged(task: Task, req: UpdateTaskRequest): (t: Task)
    ensures t.title == if req.title != "" then req.title else task.title
    ensures t.description == if req.description != "" then req.description else task.description
    ensures t.status == if req.status != "" then req.status else task.status
    ensures t.priority == if req.priority != "" then req.priority else task.priority
    ensures t.dueDate == if req.dueDate.Some? then req.dueDate else task.dueDate
    ensures t.id == task.id && t.userId == task.userId
    ensures t.createdAt == task.createdAt && t.updatedAt == task.updatedAt
  {
    task.(title := if req.title != "" then req.title else task.title,
          description := if req.description != "" then req.description else task.description,
          status := if req.status != "" then req.status else task.status,
          priority := if req.priority != "" then req.priority else task.priority,
          dueDate := if req.dueDate.Some? then req.dueDate else task.dueDate)
  }

  /** Applying the same update twice gives the same task as applying it once. */
  lemma MergeIdempotent(task: Task, req: UpdateTaskRequest)
    ensures Merged(Merged(task, req), req) == Merged(task, req)
  {
  }

  /** An update with every field empty changes nothing. */
  lemma EmptyUpdateKeepsTask(task: Task)
    ensures Merged(task, UpdateTaskRequest("", "", "", "", None)) == task
  {
  }

  /** A request that passed binding keeps a task's status and priority inside their enumerations. */
  lemma MergeKeepsEnums(task: Task, req: UpdateTaskRequest)
    requires ParseStatus(task.status).Some? && ParsePriority(task.priority).Some?
    requires ValidUpdate(req)
    ensures ParseStatus(Merged(task, req).status).Some?
    ensures ParsePriority(Merged(task, req).priority).Some?
  {
  }

  /** A created task always carries a member of each enumeration when the request passed binding. */
  lemma CreatedTaskHasEnums(userId: int, req: CreateTaskRequest)
    requires ValidCreate(req)
    ensures ParseStatus(WithDefaults(NewTask(userId, req)).status).Some?
    ensures ParsePriority(WithDefaults(NewTask(userId, req)).priority).Some?
  {
  }

  class TaskService {
    const repo: TaskRepository

    constructor (repo: TaskRepository)
      ensures this.repo == repo
    {
      this.repo := repo;
    }

    /** Defaults an empty status to TODO and an empty priority to MEDIUM, then inserts. */
    method Create(userId: int, req: CreateTaskRequest, now: int, fault: Option<string>) returns (r: Result<Task, ServiceError>)
      requires repo.Valid()
      modifies repo
      ensures repo.Valid()
      ensures fault.Some? ==> r == Err(Passed(DbError(fault.value))) && repo.rows == old(repo.rows)
      ensures fault.None? ==>
        && r.Ok?
        && r.value == WithDefaults(NewTask(userId, req)).(id := r.value.id, createdAt := now, updatedAt := now)
        && r.value.id !in old(repo.rows)
        && repo.rows == old(repo.rows)[r.value.id := r.value]
    {
      var task := Task(0, userId, req.title, req.description, req.status, req.priority, req.dueDate, 0, 0);
      if task.status == "" {
        task := task.(status := STATUS_TODO);
      }
      if task.priority == "" {
        task := task.(priority := PRIORITY_MEDIUM);
      }
      WithDefaultsIdempotent(NewTask(userId, req));
      var created := repo.Create(task, now, fault);
      if created.Err? {
        return Err(Passed(created.error));
      }
      r := Ok(created.value);
    }

    method GetByID(id: int, userId: int, fault: Option<string>) returns (r: Result<Task, ServiceError>)
      ensures fault.Some? ==> r == Err(Passed(DbError(fault.value)))
      ensures fault.None? && repo.Owns(id, userId) ==> r == Ok(repo.rows[id])
      ensures fault.None? && !repo.Owns(id, userId) ==> r == Err(TaskNotFound)
    {
      var found := repo.GetByID(id, userId, fault);
      if found.Err? {
        return Err(MapNotFound(found.error));
      }
      r := Ok(found.value);
    }

    /** The metadata echoes the filter's page and per-page as given, and the repository's total. */
    method List(userId: int, filter: TaskFilter, countFault: Option<string>, fetched: Result<seq<Task>, string>)
      returns (r: Result<TaskListResponse, ServiceError>)
      ensures countFault.Some? ==> r == Err(Passed(DbError(countFault.value)))
      ensures countFault.None? && fetched.Err? ==> r == Err(Passed(DbError(fetched.error)))
      ensures countFault.None? && fetched.Ok? ==>
        r == Ok(TaskListResponse(Items(fetched.value),
                                 ListMeta(|MatchingIds(repo.rows, userId, filter)|, filter.page, filter.perPage)))
    {
      var listed, _ := repo.List(userId, filter, countFault, fetched);
      if listed.Err? {
        return Err(Passed(listed.error));
      }
      r := Ok(TaskListResponse(listed.value.tasks, ListMeta(listed.value.total, filter.page, filter.perPage)));
    }

    /** Reads the caller's task, merges the request into it field by field, and writes it back. */
    method Update(id: int, userId: int, req: UpdateTaskRequest, now: int, getFault: Option<string>, updateFault: Option<string>)
      returns (r: Result<Task, ServiceError>)
      requires repo.Valid()
      modifies repo
      ensures repo.Valid()
      ensures getFault.Some? ==> r == Err(Passed(DbError(getFault.value))) && repo.rows == old(repo.rows)
      ensures getFault.None? && !old(repo.Owns(id, userId)) ==> r == Err(TaskNotFound) && repo.rows == old(repo.rows)
      ensures getFault.None? && old(repo.Owns(id, userId)) && updateFault.Some? ==>
        r == Err(Passed(DbError(updateFault.value))) && repo.rows == old(repo.rows)
      ensures getFault.None? && old(repo.Owns(id, userId)) && updateFault.None? ==>
        && r == Ok(Merged(old(repo.rows[id]), req).(updatedAt := now))
        && repo.rows == old(repo.rows)[id := r.value]
    {
      var found := repo.GetByID(id, userId, getFault);
      if found.Err? {
        return Err(MapNotFound(found.error));
      }
      var task := found.value;
      if req.title != "" {
        task := task.(title := req.title);
      }
      if req.description != "" {
        task := task.(description := req.description);
      }
      if req.status != "" {
        task := task.(status := req.status);
      }
      if req.priority != "" {
        task := task.(priority := req.priority);
      }
      if req.dueDate.Some? {
        task := task.(dueDate := req.dueDate);
      }
      assert task == Merged(found.value, req);
      var updated := repo.Update(task, now, updateFault);
      if updated.Err? {
        return Err(MapNotFound(updated.error));
      }
      r := Ok(updated.value);
    }

    method UpdateStatus(id: int, userId: int, status: string, now: int, fault: Option<string>) returns (r: Option<ServiceError>)
      requires repo.Valid()
      modifies repo
      ensures repo.Valid()
      ensures fault.Some? ==> r == Some(Passed(DbError(fault.value))) && repo.rows == old(repo.rows)
      ensures fault.None? && !old(repo.Owns(id, userId)) ==> r == Some(TaskNotFound) && repo.rows == old(repo.rows)
      ensures fault.None? && old(repo.Owns(id, userId)) ==>
        r.None? && repo.rows == old(repo.rows)[id := old(repo.rows[id]).(status := status, updatedAt := now)]
    {
      var e := repo.UpdateStatus(id, userId, status, now, fault);
      r := if e.Some? then Some(MapNotFound(e.value)) else None;
    }

    method Delete(id: int, userId: int, fault: Option<string>) returns (r: Option<ServiceError>)
      requires repo.Valid()
      modifies repo
      ensures repo.Valid()
      ensures fault.Some? ==> r == Some(Passed(DbError(fault.value))) && repo.rows == old(repo.rows)
      ensures fault.None? && !old(repo.Owns(id, userId)) ==> r == Some(TaskNotFound) && repo.rows == old(repo.rows)
      ensures fault.None? && old(repo.Owns(id, userId)) ==> r.None? && repo.rows == old(repo.rows) - {id}
    {
      var e := repo.Delete(id, userId, fault);
      r := if e.Some? then Some(MapNotFound(e.value)) else None;
    }
  }
}
