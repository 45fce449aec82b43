/** Validation at the HTTP boundary (app/schemas/task.py): the create payload, the read view
    built from a stored row's attributes, and the status-only view. A payload is a decoded
    JSON object; keys a schema does not declare are ignored, as the models are configured. */
module TaskSchemas {
  import opened Wrappers
  import opened TaskModel

  /** A decoded JSON value or an attribute value read off a row (timestamps as their readings). */
  datatype Value = Null | Str(s: string) | Int(i: int)

  type Object = map<string, Value>

  /** One validation failure, naming the field it is about. */
  datatype FieldError =
    | Missing(field: string)
    | NotAString(field: string)
    | NotAnInteger(field: string)
    | NotAMember(field: string)

  /** The fields a client may send to create a task; there is no status among them. */
  datatype TaskCreate = TaskCreate(title: string, description: Option<string>, priority: Priority)

  /** The full task as returned to clients. */
  datatype TaskRead = TaskRead(
    id: int,
    title: string,
    description: Option<string>,
    priority: Priority,
    status: Status,
    createdAt: Time,
    startedAt: Option<Time>,
    finishedAt: Option<Time>,
    result: Option<string>,
    error: Option<string>)

  function Errors<T>(r: Result<T, FieldError>): seq<FieldError>
  {
    if r.Err? then [r.error] else []
  }

  /** A field declared `str` with no default. */
  function RequiredString(obj: Object, field: string): Result<string, FieldError>
  {
    if field !in obj then Err(Missing(field))
    else match obj[field]
      case Str(s) => Ok(s)
      case _ => Err(NotAString(field))
  }

  /** A field declared `str | None` with no default: it must be present, and may be null. */
  function RequiredNullableString(obj: Object, field: string): Result<Option<string>, FieldError>
  {
    if field !in obj then Err(Missing(field))
    else match obj[field]
      case Null => Ok(None)
      case Str(s) => Ok(Some(s))
      case _ => Err(NotAString(field))
  }

  /** A field declared `str | None = None`: absent and null both give None. */
  function OptionalString(obj: Object, field: string): Result<Option<string>, FieldError>
  {
    if field !in obj then Ok(None)
    else match obj[field]
      case Null => Ok(None)
      case Str(s) => Ok(Some(s))
      case _ => Err(NotAString(field))
  }

  function RequiredInt(obj: Object, field: string): Result<int, FieldError>
  {
    if field !in obj then Err(Missing(field))
    else match obj[field]
      case Int(i) => Ok(i)
      case _ => Err(NotAnInteger(field))
  }

  /** A timestamp field declared `datetime | None = None`. */
  function OptionalTime(obj: Object, field: string): Result<Option<Time>, FieldError>
  {
    if field !in obj then Ok(None)
    else match obj[field]
      case Null => Ok(None)
      case Int(i) => Ok(Some(i))
      case _ => Err(NotAnInteger(field))
  }

  function RequiredPriority(obj: Object, field: string): Result<Priority, FieldError>
  {
    if field !in obj then Err(Missing(field))
    else match obj[field]
      case Str(s) => (match ParsePriority(s) case Some(p) => Ok(p) case None => Err(NotAMember(field)))
      case _ => Err(NotAMember(field))
  }

  function RequiredStatus(obj: Object, field: string): Result<Status, FieldError>
  {
    if field !in obj then Err(Missing(field))
    else match obj[field]
      case Str(s) => (match ParseStatus(s) case Some(st) => Ok(st) case None => Err(NotAMember(field)))
      case _ => Err(NotAMember(field))
  }

  /** TaskCreate validation: every field is checked and every failure is reported. */
  function ParseCreate(obj: Object): (r: Result<TaskCreate, seq<FieldError>>)
    ensures r.Ok? ==> "title" in obj && obj["title"] == Str(r.value.title)
    ensures r.Ok? ==> "priority" in obj && obj["priority"] == Str(PriorityName(r.value.priority))
    ensures r.Err? ==> r.error != []
    ensures r.Err? ==> forall e :: e in r.error ==> e.field in {"title", "description", "priority"}
  {
    var title := RequiredString(obj, "title");
    var description := OptionalString(obj, "description");
    var priority := RequiredPriority(obj, "priority");
    if title.Ok? && description.Ok? && priority.Ok? then
      Ok(TaskCreate(title.value, description.value, priority.value))
    else
      Err(Errors(title) + Errors(description) + Errors(priority))
  }

  /** TaskStatus validation. */
  function ParseStatusPayload(obj: Object): (r: Result<Status, seq<FieldError>>)
    ensures r.Ok? ==> "status" in obj && obj["status"] == Str(StatusName(r.value))
    ensures r.Err? ==> |r.error| == 1 && r.error[0].field == "status"
  {
    var status := RequiredStatus(obj, "status");
    if status.Ok? then Ok(status.value) else Err(Errors(status))
  }

  /** TaskRead built from the attributes of an object. */
  function ParseRead(obj: Object): (r: Result<TaskRead, seq<FieldError>>)
    ensures r.Ok? ==> "id" in obj && obj["id"] == Int(r.value.id)
    ensures r.Ok? ==> "status" in obj && obj["status"] == Str(StatusName(r.value.status))
    ensures r.Ok? ==> "created_at" in obj && obj["created_at"] == Int(r.value.createdAt)
    ensures r.Err? ==> r.error != []
  {
    var id := RequiredInt(obj, "id");
    var title := RequiredString(obj, "title");
    var description := RequiredNullableString(obj, "description");
    var priority := RequiredPriority(obj, "priority");
    var status := RequiredStatus(obj, "status");
    var createdAt := RequiredInt(obj, "created_at");
    var startedAt := OptionalTime(obj, "started_at");
    var finishedAt := OptionalTime(obj, "finished_at");
    var result := OptionalString(obj, "result");
    var error := OptionalString(obj, "error");
    if id.Ok? && title.Ok? && description.Ok? && priority.Ok? && status.Ok? && createdAt.Ok?
       && startedAt.Ok? && finishedAt.Ok? && result.Ok? && error.Ok?
    then
      Ok(TaskRead(id.value, title.value, description.value, priority.value, status.value,
                  createdAt.value, startedAt.value, finishedAt.value, result.value, error.value))
    else
      Err(Errors(id) + Errors(title) + Errors(description) + Errors(priority) + Errors(status)
          + Errors(createdAt) + Errors(startedAt) + Errors(finishedAt) + Errors(result) + Errors(error))
  }

  function NullableText(o: Option<string>): Value
  {
    match o case Some(s) => Str(s) case None => Null
  }

  function NullableTime(o: Option<Time>): Value
  {
    match o case Some(t) => Int(t) case None => Null
  }

  /** The attributes a stored row exposes, one per column. */
  function Attributes(t: Task): Object
  {
    map[
      "id" := Int(t.id),
      "title" := Str(t.title),
      "description" := NullableText(t.description),
      "priority" := Str(PriorityName(t.priority)),
      "status" := Str(StatusName(t.status)),
      "created_at" := Int(t.createdAt),
      "started_at" := NullableTime(t.startedAt),
      "finished_at" := NullableTime(t.finishedAt),
      "result" := NullableText(t.result),
      "error" := NullableText(t.error)]
  }

  /** The read view of a row: every column carried over unchanged. */
  function ReadOf(t: Task): (r: TaskRead)
    ensures r.id == t.id && r.status == t.status
  {
    TaskRead(t.id, t.title, t.description, t.priority, t.status, t.createdAt,
             t.startedAt, t.finishedAt, t.result, t.error)
  }

  /** The JSON a well-behaved client sends for a create request. */
  function CreateJson(c: TaskCreate): Object
  {
    map["title" := Str(c.title), "description" := NullableText(c.description),
        "priority" := Str(PriorityName(c.priority))]
  }

  /** A create payload is accepted exactly when `title` is a string, `priority` names a
      priority and `description`, if sent, is a string or null; an accepted payload's fields
      are those sent, with a missing description read as None. */
  lemma ParseCreateAccepts(obj: Object)
    ensures ParseCreate(obj).Ok? <==>
              && "title" in obj && obj["title"].Str?
              && "priority" in obj && obj["priority"].Str? && obj["priority"].s in PriorityNames
              && ("description" in obj ==> !obj["description"].Int?)
    ensures ParseCreate(obj).Ok? ==>
              && ParseCreate(obj).value.title == obj["title"].s
              && PriorityName(ParseCreate(obj).value.priority) == obj["priority"].s
              && ("description" !in obj ==> ParseCreate(obj).value.description == None)
              && ("description" in obj ==>
                    ParseCreate(obj).value.description == (if obj["description"].Str? then Some(obj["description"].s) else None))
  {
    if "priority" in obj && obj["priority"].Str? {
      ParsePriorityAcceptsExactlyNames(obj["priority"].s);
    }
  }

  /** A payload with no priority, such as one that carries only a title, is rejected,
      and the missing field is named in the error. */
  lemma ParseCreateNeedsPriority(obj: Object)
    requires "priority" !in obj
    ensures ParseCreate(obj).Err? && Missing("priority") in ParseCreate(obj).error
  {
  }

  /** Keys the create schema does not declare, `status` among them, change nothing: a
      client cannot choose the initial status. */
  lemma ParseCreateIgnoresUndeclared(obj: Object, key: string, v: Value)
    requires key != "title" && key != "description" && key != "priority"
    ensures ParseCreate(obj[key := v]) == ParseCreate(obj)
  {
    var obj' := obj[key := v];
    assert RequiredString(obj', "title") == RequiredString(obj, "title");
    assert OptionalString(obj', "description") == OptionalString(obj, "description");
    assert RequiredPriority(obj', "priority") == RequiredPriority(obj, "priority");
  }

  /** What a client renders is read back as the same create request. */
  lemma CreateRoundTrip(c: TaskCreate)
    ensures ParseCreate(CreateJson(c)) == Ok(c)
  {
    PriorityRoundTrip(c.priority, PriorityName(c.priority));
  }

  /** A status payload is accepted exactly when it names one of the six statuses. */
  lemma ParseStatusPayloadAccepts(obj: Object)
    ensures ParseStatusPayload(obj).Ok? <==>
              "status" in obj && obj["status"].Str? && obj["status"].s in StatusNames
    ensures ParseStatusPayload(map["status" := Str("IN_PROGRESS")]) == Ok(IN_PROGRESS)
    ensures ParseStatusPayload(map["status" := Str("NOT_A_STATUS")]).Err?
  {
    if "status" in obj && obj["status"].Str? {
      ParseStatusAcceptsExactlyNames(obj["status"].s);
    }
  }

  /** Reading a stored row through its attributes gives its read view. */
  lemma ReadRoundTrip(t: Task)
    ensures ParseRead(Attributes(t)) == Ok(ReadOf(t))
  {
    ReadRequiredColumns(t);
    ReadOptionalColumns(t);
  }

  /** Each required column of a stored row reads back as its value. */
  lemma ReadRequiredColumns(t: Task)
    ensures RequiredInt(Attributes(t), "id") == Ok(t.id)
    ensures RequiredString(Attributes(t), "title") == Ok(t.title)
    ensures RequiredNullableString(Attributes(t), "description") == Ok(t.description)
    ensures RequiredPriority(Attributes(t), "priority") == Ok(t.priority)
    ensures RequiredStatus(Attributes(t), "status") == Ok(t.status)
    ensures RequiredInt(Attributes(t), "created_at") == Ok(t.createdAt)
  {
    var obj := Attributes(t);
    PriorityRoundTrip(t.priority, PriorityName(t.priority));
    StatusRoundTrip(t.status, StatusName(t.status));
    assert RequiredInt(obj, "id") == Ok(t.id);
    assert RequiredString(obj, "title") == Ok(t.title);
    assert RequiredNullableString(obj, "description") == Ok(t.description);
  }

  /** Each execution column of a stored row reads back as its value, null as None. */
  lemma ReadOptionalColumns(t: Task)
    ensures OptionalTime(Attributes(t), "started_at") == Ok(t.startedAt)
    ensures OptionalTime(Attributes(t), "finished_at") == Ok(t.finishedAt)
    ensures OptionalString(Attributes(t), "result") == Ok(t.result)
    ensures OptionalString(Attributes(t), "error") == Ok(t.error)
  {
    var obj := Attributes(t);
    assert OptionalTime(obj, "started_at") == Ok(t.startedAt);
    assert OptionalTime(obj, "finished_at") == Ok(t.finishedAt);
  }

  /** In the read view the execution columns default to None when the object lacks them. */
  lemma ReadDefaults(obj: Object)
    requires ParseRead(obj).Ok?
    requires "started_at" !in obj && "finished_at" !in obj && "result" !in obj && "error" !in obj
    ensures ParseRead(obj).value.startedAt.None? && ParseRead(obj).value.finishedAt.None?
    ensures ParseRead(obj).value.result.None? && ParseRead(obj).value.error.None?
  {
  }
}
