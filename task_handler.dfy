/**
 * The task HTTP handlers (internal/handler/task.go): the order of the
 * authentication, path-id and body checks, the list query normalisation
 * and the status code each outcome gets.
 */
module TaskHandler {
  import opened Common
  import opened Numeric
  import opened TaskModel
  import opened Repository
  import opened TaskService

  const STATUS_OK: int := 200
  const STATUS_CREATED: int := 201
  const STATUS_BAD_REQUEST: int := 400
  const STATUS_UNAUTHORIZED: int := 401
  const STATUS_NOT_FOUND: int := 404
  const STATUS_INTERNAL: int := 500
  const MAX_PER_PAGE: int := 100

  /** A response body; the text of a binding error is not modelled. */
  datatype Body =
    | ErrorBody(message: string)
    | BindErrorBody
    | TaskBody(task: Task)
    | ListBody(list: TaskListResponse)
    | MessageBody(message: string)

  datatype Response = Response(status: int, body: Body)

  /** A request body as JSON decoding leaves it: None when it is not valid JSON for the struct. */
  type Decoded<T> = Option<T>

  /** Not-found is 404; every other service error is 500. */
  function ErrorStatus(e: ServiceError): (s: int)
    ensures s == STATUS_NOT_FOUND <==> e == TaskNotFound
    ensures s == STATUS_INTERNAL <==> e != TaskNotFound
  {
    if e == TaskNotFound then STATUS_NOT_FOUND else STATUS_INTERNAL
  }

  /** The `page` query parameter: an integer above 0, else 1. */
  function PageParam(raw: string): (p: int)
    ensures p >= 1
    ensures ParseInt64(raw).Some? && ParseInt64(raw).value > 0 ==> p == ParseInt64(raw).value
    ensures !(ParseInt64(raw).Some? && ParseInt64(raw).value > 0) ==> p == DEFAULT_PAGE
  {
    var parsed := ParseInt64(raw);
    if parsed.Some? && parsed.value > 0 then parsed.value else DEFAULT_PAGE
  }

  /** The `per_page` query parameter: an integer in 1..100, else 20. */
  function PerPageParam(raw: string): (n: int)
    ensures 1 <= n <= MAX_PER_PAGE
    ensures ParseInt64(raw).Some? && 0 < ParseInt64(raw).value <= MAX_PER_PAGE ==> n == ParseInt64(raw).value
    ensures !(ParseInt64(raw).Some? && 0 < ParseInt64(raw).value <= MAX_PER_PAGE) ==> n == DEFAULT_PER_PAGE
  {
    var parsed := ParseInt64(raw);
    if parsed.Some? && 0 < parsed.value <= MAX_PER_PAGE then parsed.value else DEFAULT_PER_PAGE
  }

  /** The handler's filter is already normal, so the repository's fallbacks never fire and the echoed page is the one used. */
  lemma HandlerFilterIsNormal(status: string, priority: string, page: string, perPage: string)
    ensures var f := TaskFilter(status, priority, PageParam(page), PerPageParam(perPage));
      Normalized(f) == f
  {
  }

  /** Any page number that parses is accepted, so the offset can still overflow. */
  lemma HugePageAccepted()
    ensures PageParam(FormatInt(0x4000_0000_0000_0000)) == 0x4000_0000_0000_0000
  {
    ParseFormatRoundTrip(0x4000_0000_0000_0000);
  }

  class TaskHandler {
    const service: TaskService

    constructor (service: TaskService)
      ensures this.service == service
    {
      this.service := service;
    }

    /** POST /tasks. Every service error is 500. */
    method Create(userId: int, body: Decoded<CreateTaskRequest>, now: int, fault: Option<string>) returns (resp: Response)
      requires service.repo.Valid()
      modifies service.repo
      ensures service.repo.Valid()
      ensures resp.status == STATUS_UNAUTHORIZED <==> userId == 0
      ensures userId != 0 && (body.None? || !ValidCreate(body.value)) ==> resp.status == STATUS_BAD_REQUEST
      ensures userId != 0 && body.Some? && ValidCreate(body.value) ==>
        (resp.status == STATUS_CREATED <==> fault.None?) && (resp.status == STATUS_INTERNAL <==> fault.Some?)
      ensures resp.status != STATUS_CREATED ==> service.repo.rows == old(service.repo.rows)
      ensures resp.status == STATUS_CREATED ==>
        resp.body.TaskBody? && resp.body.task.userId == userId
        && service.repo.rows == old(service.repo.rows)[resp.body.task.id := resp.body.task]
    {
      if userId == 0 {
        return Response(STATUS_UNAUTHORIZED, ErrorBody("unauthorized"));
      }
      if body.None? || !ValidCreate(body.value) {
        return Response(STATUS_BAD_REQUEST, BindErrorBody);
      }
      var created := service.Create(userId, body.value, now, fault);
      if created.Err? {
        return Response(STATUS_INTERNAL, ErrorBody("failed to create task"));
      }
      resp := Response(STATUS_CREATED, TaskBody(created.value));
    }

    /** GET /tasks/:id. */
    method Get(userId: int, idParam: string, fault: Option<string>) returns (resp: Response)
      ensures resp.status == STATUS_UNAUTHORIZED <==> userId == 0
      ensures userId != 0 && ParseInt64(idParam).None? ==> resp.status == STATUS_BAD_REQUEST
      ensures userId != 0 && ParseInt64(idParam).Some? ==>
        var id := ParseInt64(idParam).value;
        && (fault.Some? ==> resp.status == STATUS_INTERNAL)
        && (fault.None? && !service.repo.Owns(id, userId) ==> resp.status == STATUS_NOT_FOUND)
        && (fault.None? && service.repo.Owns(id, userId) ==> resp == Response(STATUS_OK, TaskBody(service.repo.rows[id])))
    {
      if userId == 0 {
        return Response(STATUS_UNAUTHORIZED, ErrorBody("unauthorized"));
      }
      var id := ParseInt64(idParam);
      if id.None? {
        return Response(STATUS_BAD_REQUEST, ErrorBody("invalid task id"));
      }
      var found := service.GetByID(id.value, userId, fault);
      if found.Err? {
        if found.error == TaskNotFound {
          return Response(STATUS_NOT_FOUND, ErrorBody("task not found"));
        }
        return Response(STATUS_INTERNAL, ErrorBody("failed to get task"));
      }
      resp := Response(STATUS_OK, TaskBody(found.value));
    }

    /** GET /tasks with `status`, `priority`, `page` and `per_page` query parameters. */
    method List(userId: int, status: string, priority: string, page: string, perPage: string,
                countFault: Option<string>, fetched: Result<seq<Task>, string>)
      returns (resp: Response)
      ensures resp.status == STATUS_UNAUTHORIZED <==> userId == 0
      ensures userId != 0 && (countFault.Some? || fetched.Err?) ==> resp.status == STATUS_INTERNAL
      ensures userId != 0 && countFault.None? && fetched.Ok? ==>
        var f := TaskFilter(status, priority, PageParam(page), PerPageParam(perPage));
        resp == Response(STATUS_OK, ListBody(TaskListResponse(Items(fetched.value),
          ListMeta(|MatchingIds(service.repo.rows, userId, f)|, f.page, f.perPage))))
    {
      if userId == 0 {
        return Response(STATUS_UNAUTHORIZED, ErrorBody("unauthorized"));
      }
      var filter := TaskFilter(status, priority, DEFAULT_PAGE, DEFAULT_PER_PAGE);
      var p := ParseInt64(page);
      if p.Some? && p.value > 0 {
        filter := filter.(page := p.value);
      }
      var n := ParseInt64(perPage);
      if n.Some? && n.value > 0 && n.value <= MAX_PER_PAGE {
        filter := filter.(perPage := n.value);
      }
      var listed := service.List(userId, filter, countFault, fetched);
      if listed.Err? {
        return Response(STATUS_INTERNAL, ErrorBody("failed to list tasks"));
      }
      resp := Response(STATUS_OK, ListBody(listed.value));
    }

    /** PUT /tasks/:id. */
    method Update(userId: int, idParam: string, body: Decoded<UpdateTaskRequest>, now: int,
                  getFault: Option<string>, updateFault: Option<string>)
      returns (resp: Response)
      requires service.repo.Valid()
      modifies service.repo
      ensures service.repo.Valid()
      ensures resp.status == STATUS_UNAUTHORIZED <==> userId == 0
      ensures userId != 0 && ParseInt64(idParam).None? ==> resp.status == STATUS_BAD_REQUEST
      ensures userId != 0 && ParseInt64(idParam).Some? && (body.None? || !ValidUpdate(body.value)) ==>
        resp.status == STATUS_BAD_REQUEST
      ensures resp.status != STATUS_OK ==> service.repo.rows == old(service.repo.rows)
      ensures userId != 0 && ParseInt64(idParam).Some? && body.Some? && ValidUpdate(body.value) ==>
        var id := ParseInt64(idParam).value;
        && (getFault.Some? ==> resp.status == STATUS_INTERNAL)
        && (getFault.None? && !old(service.repo.Owns(id, userId)) ==> resp.status == STATUS_NOT_FOUND)
        && (getFault.None? && old(service.repo.Owns(id, userId)) ==>
              (resp.status == STATUS_OK <==> updateFault.None?)
              && (updateFault.None? ==> resp.body == TaskBody(Merged(old(service.repo.rows[id]), body.value).(updatedAt := now))))
    {
      if userId == 0 {
        return Response(STATUS_UNAUTHORIZED, ErrorBody("unauthorized"));
      }
      var id := ParseInt64(idParam);
      if id.None? {
        return Response(STATUS_BAD_REQUEST, ErrorBody("invalid task id"));
      }
      if body.None? || !ValidUpdate(body.value) {
        return Response(STATUS_BAD_REQUEST, BindErrorBody);
      }
      var updated := service.Update(id.value, userId, body.value, now, getFault, updateFault);
      if updated.Err? {
        if updated.error == TaskNotFound {
          return Response(STATUS_NOT_FOUND, ErrorBody("task not found"));
        }
        return Response(STATUS_INTERNAL, ErrorBody("failed to update task"));
      }
      resp := Response(STATUS_OK, TaskBody(updated.value));
    }

    /** PATCH /tasks/:id/status. */
    method UpdateStatus(userId: int, idParam: string, body: Decoded<UpdateStatusRequest>, now: int, fault: Option<string>)
      returns (resp: Response)
      requires service.repo.Valid()
      modifies service.repo
      ensures service.repo.Valid()
      ensures resp.status == STATUS_UNAUTHORIZED <==> userId == 0
      ensures userId != 0 && ParseInt64(idParam).None? ==> resp.status == STATUS_BAD_REQUEST
      ensures userId != 0 && ParseInt64(idParam).Some? && (body.None? || !ValidStatusUpdate(body.value)) ==>
        resp.status == STATUS_BAD_REQUEST
      ensures resp.status != STATUS_OK ==> service.repo.rows == old(service.repo.rows)
      ensures userId != 0 && ParseInt64(idParam).Some? && body.Some? && ValidStatusUpdate(body.value) ==>
        var id := ParseInt64(idParam).value;
        && (fault.Some? ==> resp.status == STATUS_INTERNAL)
        && (fault.None? && !old(service.repo.Owns(id, userId)) ==> resp.status == STATUS_NOT_FOUND)
        && (fault.None? && old(service.repo.Owns(id, userId)) ==>
              resp.status == STATUS_OK
              && service.repo.rows == old(service.repo.rows)[id := old(service.repo.rows[id]).(status := body.value.status, updatedAt := now)])
    {
      if userId == 0 {
        return Response(STATUS_UNAUTHORIZED, ErrorBody("unauthorized"));
      }
      var id := ParseInt64(idParam);
      if id.None? {
        return Response(STATUS_BAD_REQUEST, ErrorBody("invalid task id"));
      }
      if body.None? || !ValidStatusUpdate(body.value) {
        return Response(STATUS_BAD_REQUEST, BindErrorBody);
      }
      var e := service.UpdateStatus(id.value, userId, body.value.status, now, fault);
      if e.Some? {
        if e.value == TaskNotFound {
          return Response(STATUS_NOT_FOUND, ErrorBody("task not found"));
        }
        return Response(STATUS_INTERNAL, ErrorBody("failed to update task status"));
      }
      resp := Response(STATUS_OK, MessageBody("status updated successfully"));
    }

    /** DELETE /tasks/:id. */
    method Delete(userId: int, idParam: string, fault: Option<string>) returns (resp: Response)
      requires service.repo.Valid()
      modifies service.repo
      ensures service.repo.Valid()
      ensures resp.status == STATUS_UNAUTHORIZED <==> userId == 0
      ensures userId != 0 && ParseInt64(idParam).None? ==> resp.status == STATUS_BAD_REQUEST
      ensures resp.status != STATUS_OK ==> service.repo.rows == old(service.repo.rows)
      ensures userId != 0 && ParseInt64(idParam).Some? ==>
        var id := ParseInt64(idParam).value;
        && (fault.Some? ==> resp.status == STATUS_INTERNAL)
        && (fault.None? && !old(service.repo.Owns(id, userId)) ==> resp.status == STATUS_NOT_FOUND)
        && (fault.None? && old(service.repo.Owns(id, userId)) ==>
              resp.status == STATUS_OK && service.repo.rows == old(service.repo.rows) - {id})
    {
      if userId == 0 {
        return Response(STATUS_UNAUTHORIZED, ErrorBody("unauthorized"));
      }
      var id := ParseInt64(idParam);
      if id.None? {
        return Response(STATUS_BAD_REQUEST, ErrorBody("invalid task id"));
      }
      var e := service.Delete(id.value, userId, fault);
      if e.Some? {
        if e.value == TaskNotFound {
          return Response(STATUS_NOT_FOUND, ErrorBody("task not found"));
        }
        return Response(STATUS_INTERNAL, ErrorBody("failed to delete task"));
      }
      resp := Response(STATUS_OK, MessageBody("task deleted successfully"));
    }
  }
}
