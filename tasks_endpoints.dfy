/** The task HTTP handlers (app/api/v1/endpoints/tasks.py) as decisions over the store: which
    store operation each one calls and which response code follows from its result. Request
    validation that the framework performs before a handler runs is folded into the handler. */
module TasksEndpoints {
  import opened Wrappers
  import opened TaskModel
  import opened TaskSchemas
  import opened TaskIdText
  import opened TaskRepository

  const HttpOk: int := 200
  const HttpCreated: int := 201
  const HttpBadRequest: int := 400
  const HttpNotFound: int := 404
  const HttpUnprocessable: int := 422
  const HttpServerError: int := 500

  const NotFoundDetail: string := "Task not found"
  const CannotCancelDetail: string := "Cannot cancel task"

  datatype Body =
    | TaskBody(task: TaskRead)
    | TaskList(tasks: seq<TaskRead>)
    | StatusBody(status: Status)
    | Detail(message: string)
    | Invalid(errors: seq<FieldError>)
    | NoBody

  datatype Response = Response(code: int, body: Body)

  function ReadAll(ts: seq<Task>): (r: seq<TaskRead>)
    ensures |r| == |ts|
    ensures forall i :: 0 <= i < |ts| ==> r[i] == ReadOf(ts[i])
  {
    if ts == [] then [] else [ReadOf(ts[0])] + ReadAll(ts[1..])
  }

  /** The status filter of a listing request: None when absent, the parsed status otherwise. */
  function StatusQuery(status: Option<string>): (r: Option<Option<Status>>)
    ensures r.None? <==> status.Some? && status.value !in StatusNames
    ensures r == Some(None) <==> status.None?
    ensures r.Some? && r.value.Some? ==> status == Some(StatusName(r.value.value))
  {
    match status
    case None => Some(None)
    case Some(s) =>
      ParseStatusAcceptsExactlyNames(s);
      match ParseStatus(s) case Some(st) => Some(Some(st)) case None => None
  }

  /** POST /tasks: a payload that fails validation is answered 422 and nothing is stored; a
      valid one is stored as a NEW task and answered 201 with that task, and exactly one
      background enqueue of the id's text is scheduled. A commit the database refuses (a title
      longer than its column, with more than spaces past the limit) surfaces as 500 with
      nothing scheduled. */
  method CreateTask(store: TaskStore, payload: Object, now: Time) returns (resp: Response, scheduled: seq<string>)
    requires store.Valid()
    modifies store
    ensures store.Valid()
    ensures ParseCreate(payload).Err? ==>
              resp == Response(HttpUnprocessable, Invalid(ParseCreate(payload).error))
              && scheduled == [] && store.tasks == old(store.tasks) && store.log == old(store.log)
              && store.order == old(store.order) && store.nextId == old(store.nextId)
    ensures resp.code == HttpCreated <==>
              ParseCreate(payload).Ok? && StoredTitle(ParseCreate(payload).value.title).Some?
    ensures ParseCreate(payload).Ok? && StoredTitle(ParseCreate(payload).value.title).None? ==>
              resp.code == HttpServerError && scheduled == [] && store.tasks == old(store.tasks)
              && store.order == old(store.order) && store.nextId == old(store.nextId) && store.log == old(store.log)
    ensures resp.code == HttpCreated ==>
              && resp.body.TaskBody?
              && var t := resp.body.task;
              && t.id == old(store.nextId) && t.id !in old(store.tasks) && t.id in store.tasks
              && store.nextId == old(store.nextId) + 1 && store.order == old(store.order) + [t.id]
              && store.log == old(store.log) + [StatusWrite(t.id, NEW)]
              && store.tasks == old(store.tasks)[t.id := store.tasks[t.id]]
              && ReadOf(store.tasks[t.id]) == t
              && store.tasks[t.id].startedAt.None? && store.tasks[t.id].finishedAt.None?
              && store.tasks[t.id].result.None? && store.tasks[t.id].error.None?
              && t.status == NEW && t.title == StoredTitle(ParseCreate(payload).value.title).value
              && t.description == ParseCreate(payload).value.description
              && t.priority == ParseCreate(payload).value.priority && t.createdAt == now
              && scheduled == [DecimalString(t.id)]
  {
    var parsed := ParseCreate(payload);
    if parsed.Err? {
      return Response(HttpUnprocessable, Invalid(parsed.error)), [];
    }
    var created := store.Create(parsed.value, now);
    if created.None? {
      return Response(HttpServerError, NoBody), [];
    }
    var task := created.value;
    scheduled := [DecimalString(task.id)];
    resp := Response(HttpCreated, TaskBody(ReadOf(task)));
  }

  /** GET /tasks: `skip` must be at least 0, `limit` at least 1 and `status`, if given, a status
      name, or the request is answered 422; otherwise the filters and the page go to the store
      unchanged and its rows are returned. */
  method ListTasks(store: TaskStore, status: Option<string> := None, priority: Option<string> := None,
                   skip: int := 0, limit: int := 100) returns (resp: Response)
    requires store.Valid()
    ensures resp.code == HttpUnprocessable <==> skip < 0 || limit <= 0 || StatusQuery(status).None?
    ensures resp.code != HttpUnprocessable ==>
              resp == Response(HttpOk, TaskList(ReadAll(Select(store.Rows(), StatusQuery(status).value, priority, skip, limit))))
    ensures resp.code == HttpOk ==>
              && |resp.body.tasks| <= limit
              && forall r :: r in resp.body.tasks ==>
                   && r.id in store.tasks && ReadOf(store.tasks[r.id]) == r
                   && Matches(store.tasks[r.id], StatusQuery(status).value, priority)
  {
    var filter := StatusQuery(status);
    if skip < 0 || limit <= 0 || filter.None? {
      return Response(HttpUnprocessable, NoBody);
    }
    var rows := store.GetAll(filter.value, priority, skip, limit);
    resp := Response(HttpOk, TaskList(ReadAll(rows)));
    forall r | r in resp.body.tasks
      ensures r.id in store.tasks && ReadOf(store.tasks[r.id]) == r
      ensures Matches(store.tasks[r.id], filter.value, priority)
    {
      var i :| 0 <= i < |rows| && resp.body.tasks[i] == r;
      assert rows[i] in rows;
    }
  }

  /** GET /tasks/{id}: 404 exactly when the id is unknown, otherwise the stored task. */
  method GetTask(store: TaskStore, id: int) returns (resp: Response)
    requires store.Valid()
    ensures resp.code == HttpNotFound <==> id !in store.tasks
    ensures id !in store.tasks ==> resp.body == Detail(NotFoundDetail)
    ensures id in store.tasks ==> resp == Response(HttpOk, TaskBody(ReadOf(store.tasks[id])))
  {
    var found := store.GetById(id);
    if found.None? {
      return Response(HttpNotFound, Detail(NotFoundDetail));
    }
    resp := Response(HttpOk, TaskBody(ReadOf(found.value)));
  }

  /** DELETE /tasks/{id}: whenever the store's cancel gives nothing, an unknown id included, the
      answer is 400; otherwise 200 with status CANCELLED. */
  method CancelTask(store: TaskStore, id: int) returns (resp: Response)
    requires store.Valid()
    modifies store
    ensures store.Valid()
    ensures store.tasks == Cancelled(old(store.tasks), id)
    ensures store.order == old(store.order) && store.nextId == old(store.nextId)
    ensures store.log == old(store.log) + (if resp.code == HttpOk then [StatusWrite(id, CANCELLED)] else [])
    ensures resp.code == HttpBadRequest <==> !Unfinished(old(store.tasks), id)
    ensures id !in old(store.tasks) ==> resp == Response(HttpBadRequest, Detail(CannotCancelDetail))
    ensures resp.code == HttpBadRequest ==> resp.body == Detail(CannotCancelDetail) && store.tasks == old(store.tasks)
    ensures resp.code != HttpBadRequest ==> resp == Response(HttpOk, StatusBody(CANCELLED))
  {
    var cancelled := store.CancelTask(id);
    if cancelled.None? {
      return Response(HttpBadRequest, Detail(CannotCancelDetail));
    }
    resp := Response(HttpOk, StatusBody(cancelled.value.status));
  }

  /** GET /tasks/{id}/status: 404 exactly when the id is unknown, otherwise the stored status. */
  method GetTaskStatus(store: TaskStore, id: int) returns (resp: Response)
    requires store.Valid()
    ensures resp.code == HttpNotFound <==> id !in store.tasks
    ensures id !in store.tasks ==> resp.body == Detail(NotFoundDetail)
    ensures id in store.tasks ==> resp == Response(HttpOk, StatusBody(store.tasks[id].status))
  {
    var found := store.GetById(id);
    if found.None? {
      return Response(HttpNotFound, Detail(NotFoundDetail));
    }
    resp := Response(HttpOk, StatusBody(found.value.status));
  }
}
