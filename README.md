# Task lifecycle service — a Dafny model

The service accepts tasks over HTTP, stores them in a `tasks` table and publishes each new
task's id to a durable RabbitMQ queue. A consumer takes ids off that queue and runs the task.
Each task has a title, an optional description and a priority (LOW, MEDIUM, HIGH). Its status
moves from NEW through IN_PROGRESS to one of the final statuses COMPLETED, FAILED or
CANCELLED. While a task has not reached a final status, a client may cancel it.

The model covers:

- **The table and its defaults** (`TaskModel`): the two enumerations, their wire names, the
  row record, the VARCHAR(255) title column (a longer value is refused unless all of the
  excess is spaces, which PostgreSQL cuts off), and the defaults an insert applies.
- **Request and response validation** (`TaskSchemas`): JSON objects checked field by field
  against the create, read and status-only schemas.
- **The id's text on the queue** (`TaskIdText`): `str(id)` on the publishing side, and
  Python's base-ten `int(...)` on the consuming side.
- **The repository** (`TaskRepository`): a `TaskStore` class holding the committed rows (a map
  from id to row), the physical row order, the id sequence and a ghost log of every committed
  status. The listing query is a function. Each writing operation is a method stated against a
  map-level function: `Cancelled`, `StatusUpdated`.
- **The consumer's `handle_message`** (`Worker`): every early return and the two commits of
  an eligible task. These are inputs: whether the session factory is set, whether the row
  lookup raises, how the work goes (success, or which step raises), whether the rollback or
  FAILED commit after a failure raises in turn, whether a cancel request commits while the
  work runs, and the two clock readings.
- **The publisher** (`TaskProcessor`): a `Processor` class with an `initialized` flag and
  connection, channel, exchange and queue handles. A `Registry` holds the single instance.
  Where the broker raises is an input.
- **The HTTP handlers** (`TasksEndpoints`): which repository call each handler makes, and
  which status code and body follow from its result.
- **End-to-end runs** (`Scenarios`): the runs the integration tests walk through, proved from
  the components' contracts.

`Wrappers` holds `Option` and `Result`; `Settings` holds the exchange, queue and routing-key
names.

Where the code and its tests or documentation disagree, the model follows the code:

- **Cancel of an unknown id.** `DELETE /tasks/{id}` answers 400 "Cannot cancel task" for an
  id that does not exist, because the repository returns nothing both for an unknown id and
  for a finished task (app/api/v1/endpoints/tasks.py:120-123). The integration test at
  tests/test_integration.py:144 expects 404 there. `TasksEndpoints.CancelTask` and
  `Scenarios.UnknownId` prove the 400.
- **The final commit after a cancel.** A cancel that commits while the consumer is working
  does not stop the work. The consumer's final commit writes COMPLETED or FAILED over
  CANCELLED (app/worker.py:54-75). `Worker.HandleMessage` states this and
  `Scenarios.CancelDuringWork` exhibits it.
- **Stuck tasks.** A task is left IN_PROGRESS when, after the IN_PROGRESS commit, the
  failure handling itself raises (app/worker.py:71-75). The exception leaves the handler, and
  `message.process()` (app/worker.py:26) rejects the message with its default of no requeue,
  so the broker drops it. The id is published only once (app/api/v1/endpoints/tasks.py:50),
  so such a task stays IN_PROGRESS for good. The consumer would re-run it, because it runs
  any task that has not reached a final status, IN_PROGRESS included (app/worker.py:46).
  That needs another delivery of the same id, which the service never makes itself: a broker
  redelivery of an unacknowledged message after a consumer's connection drops, or a manual
  republish. See `Scenarios.StuckThenDeliveredAgain`.
- **Empty titles.** No check rejects an empty title, so none is modelled.
- **Listing order.** The listing query has no ORDER BY, so PostgreSQL returns rows in scan
  order. That order is not promised, and an UPDATE writes a new row version that can move a
  row. The model fixes one possible order, the order of insertion.

## Model

| member | source | states |
|---|---|---|
| TaskModel.ParsePriority | app/db/models/task.py:11-14 | enum lookup by value: any member it returns has exactly the given string as its name |
| TaskModel.ParseStatus | app/db/models/task.py:17-23 | the same for the six statuses |
| TaskModel.PriorityRoundTrip | app/db/models/task.py:11-14 | parsing a priority's name gives that priority, and a string parses to a priority exactly when it is that priority's name |
| TaskModel.StatusRoundTrip | app/db/models/task.py:17-23 | the same round trip, both directions, for statuses |
| TaskModel.ParsePriorityAcceptsExactlyNames | app/db/models/task.py:11-14 | a string is accepted as a priority iff it is one of "LOW", "MEDIUM", "HIGH" |
| TaskModel.ParseStatusAcceptsExactlyNames | app/db/models/task.py:17-23 | a string is accepted as a status iff it is one of the six names; "NOT_A_STATUS" is rejected |
| TaskModel.NamesInjective | app/db/models/task.py:11-23 | distinct enum members have distinct names |
| TaskModel.Inserted | app/db/models/task.py:26-42 | an inserted row keeps the given id, title, description and creation time; priority defaults to MEDIUM and status to NEW when not given; started_at, finished_at, result and error start null |
| TaskSchemas.ReadOf | app/schemas/task.py:20-35 | the read view of a row carries its id and status (and every other column, see ReadRoundTrip) |
| TaskSchemas.ParseCreate | app/schemas/task.py:8-17 | a payload that validates carries the parsed title and the parsed priority's name; a rejection lists at least one error, each naming one of the declared fields |
| TaskSchemas.ParseCreateAccepts | app/schemas/task.py:8-17 | a create payload validates iff title is a string, priority is a string naming a priority and description, if present, is a string or null; the parsed title and priority are the ones sent, the description is the string sent, None when null or missing |
| TaskSchemas.ParseCreateNeedsPriority | tests/test_unit.py:17-20 | a payload without priority is rejected, and the error names the missing priority |
| TaskSchemas.ParseCreateIgnoresUndeclared | app/schemas/task.py:8-17 | adding any key other than title, description or priority (status included) does not change the validation result |
| TaskSchemas.CreateRoundTrip | tests/test_unit.py:9-14 | the JSON of a create request validates back to the same request |
| TaskSchemas.ParseStatusPayload | app/schemas/task.py:38-44 | a status that validates is the one whose name was sent; a rejection is one error, on the status field |
| TaskSchemas.ParseStatusPayloadAccepts | app/schemas/task.py:38-44 | a status payload validates iff `status` is a string naming a status; "IN_PROGRESS" gives IN_PROGRESS and "NOT_A_STATUS" is an error |
| TaskSchemas.ParseRead | app/schemas/task.py:20-35 | a read that validates carries the id, status and creation time that were given; a rejection lists at least one error |
| TaskSchemas.ReadRoundTrip | app/schemas/task.py:20-35 | validating a stored row's attributes against the read schema succeeds and gives the row's read view, every column unchanged |
| TaskSchemas.ReadRequiredColumns | app/schemas/task.py:23-28 | each required field of the read schema, read from a stored row's attributes, is that row's column value |
| TaskSchemas.ReadOptionalColumns | app/schemas/task.py:29-32 | each optional field of the read schema, read from a stored row's attributes, is that row's column value, null as None |
| TaskSchemas.ReadDefaults | app/schemas/task.py:29-32 | when the attributes lack started_at, finished_at, result and error, the read view has None for each |
| TaskIdText.Digits | app/api/v1/endpoints/tasks.py:50 | the decimal text of a natural number starts with a digit, and with no leading zero unless the number is 0 |
| TaskIdText.DecimalString | app/api/v1/endpoints/tasks.py:50 | `str(id)` is never empty; it starts with '-' iff the id is negative, and is "0" iff the id is 0 |
| TaskIdText.DigitsAreDigits | app/api/v1/endpoints/tasks.py:50 | the decimal text of a natural number is non-empty and made only of digits |
| TaskIdText.ParseDigits | app/worker.py:29 | reading the digits of a natural number gives that number back |
| TaskIdText.DecimalRoundTrip | app/worker.py:27-30 | for every integer id, the consumer's `int(...)` reads the publisher's `str(id)` back as the same id |
| TaskIdText.ParseNat | app/worker.py:29 | a digit string that is read starts and ends with a digit |
| TaskIdText.ParseInt | app/worker.py:28-32 | text that is empty or all whitespace is rejected; a negative result comes from text whose first non-space character is '-' |
| TaskIdText.StripKeepsInfix | app/worker.py:29 | stripping leading whitespace keeps a suffix of the text, stripping trailing whitespace a prefix |
| TaskIdText.ParseIntNeedsDigit | app/worker.py:28-32 | text with no digit in it is rejected (the ValueError path) |
| TaskIdText.ParseNatExamples | app/worker.py:29 | "42" reads as 42, "7" as 7, "1_000" as 1000, and "1__0" is rejected |
| TaskIdText.ParseIntStripsSpace | app/worker.py:29 | " 42\n" reads as 42 and "-7" as -7 |
| TaskIdText.ParseIntUnderscores | app/worker.py:28-32 | "1_000" reads as 1000; "1__0", "abc" and "" are rejected |
| TaskRepository.Filter | app/repositories/task_repository.py:43-46 | the filtered rows are never more than the input rows; a row is in the result iff it is an input row matching the status filter and, when the priority string is non-empty, the priority filter |
| TaskRepository.Page | app/repositories/task_repository.py:41 | OFFSET/LIMIT: at most `limit` rows; exactly min(rows − skip, limit) when skip is within range, none otherwise; the i-th result is row skip+i |
| TaskRepository.Select | app/repositories/task_repository.py:33-49 | a listing has at most `limit` rows and no more than the table; with no offset and a limit covering the table it is exactly the filtered rows |
| TaskRepository.SelectSound | app/repositories/task_repository.py:33-49 | a listing holds at most `limit` rows, all stored and all matching the filters |
| TaskRepository.SelectComplete | app/repositories/task_repository.py:33-49 | with no offset and a limit at least the number of matches, every matching row is listed |
| TaskRepository.SelectByPriority | tests/test_repository.py:69-85 | filtering by a priority's name lists only tasks with that priority |
| TaskRepository.Cancelled | app/repositories/task_repository.py:60-72 | a cancel keeps the set of ids; a row whose status is not final becomes CANCELLED; for an unknown id or a final status the table is unchanged |
| TaskRepository.CancelFrame | app/repositories/task_repository.py:60-72 | a cancel keeps the set of ids; it changes no other row, and in its own row only the status; a cancellable row becomes CANCELLED |
| TaskRepository.CancelTwice | tests/test_integration.py:136-138 | after a cancel the task is no longer cancellable, and a second cancel changes nothing |
| TaskRepository.UpdateToFinalBlocksCancel | tests/test_repository.py:105-122 | once a task is updated to COMPLETED, FAILED or CANCELLED, a cancel is refused and changes nothing |
| TaskRepository.StatusUpdated | app/repositories/task_repository.py:51-58 | a status update keeps the set of ids; a known id's row gets the new status, whatever it was; for an unknown id the table is unchanged |
| TaskRepository.UpdateFrame | app/repositories/task_repository.py:51-58 | a status update keeps the set of ids; it changes no other row, and in its own row only the status; any status is accepted, with no transition check |
| TaskRepository.TaskStore.constructor | app/repositories/task_repository.py:14-15 | a new store is empty, with the id sequence at 1 |
| TaskRepository.TaskStore.RowsAreStored | app/repositories/task_repository.py:47-49 | the table's rows are exactly the stored tasks, one per id, with no id repeated |
| TaskModel.StoredTitle | app/db/models/task.py:30 | a VARCHAR(255) value is refused iff it is longer than 255 characters and its excess is not all spaces; a kept value is at most 255 characters long and is the given text with only trailing spaces cut off; a value that fits is kept whole, and a longer one is cut to exactly its first 255 characters |
| TaskRepository.TaskStore.Create | app/repositories/task_repository.py:17-27 | the insert commits iff the title column takes the title (StoredTitle); on success the id is the sequence's next value, which was not in use, and the sequence advances by one; the row has status NEW, the title as stored, the request's description and priority, the given creation time and null execution columns, and the table gains exactly that row; on failure nothing changes |
| TaskRepository.TaskStore.GetById | app/repositories/task_repository.py:29-31 | the stored row when the id is known, nothing otherwise |
| TaskRepository.TaskStore.GetAll | app/repositories/task_repository.py:33-49 | the result is the filtered, skipped and limited listing of the table: at most `limit` rows, each a stored row matching the filters |
| TaskRepository.TaskStore.UpdateStatus | app/repositories/task_repository.py:51-58 | the table becomes StatusUpdated(old, id, s); a row is returned iff the id is known, and it carries the new status; that status is committed |
| TaskRepository.TaskStore.CancelTask | app/repositories/task_repository.py:60-72 | the table becomes Cancelled(old, id); a row is returned iff the id is known and its status is not final, and it is CANCELLED; only then is CANCELLED committed |
| TaskRepository.TaskStore.Persist | app/worker.py:58 | a session commit writes the row as the session holds it and records its status |
| Worker.RunRow | app/worker.py:54-80 | a run keeps the task's id, title, description, priority and creation time. Successful work: COMPLETED, "Processed successfully", both times. A caught failure: FAILED with the exception text, and the start time unless the IN_PROGRESS commit itself raised. A failure whose recovery raises: the row as last committed, IN_PROGRESS (or a cancel committed meanwhile) with the start time, or unchanged if nothing was committed |
| Worker.FinishRun | app/worker.py:63-75 | once IN_PROGRESS is committed: successful work commits COMPLETED with the result and finish time over the current row, whatever its status; a failure commits FAILED with the exception text, or nothing when the recovery raises; the outcome is Processed, ProcessingFailed or RecoveryRaised accordingly |
| Worker.RunTask | app/worker.py:54-80 | running an unfinished task answers Processed, ProcessingFailed with the exception text, or RecoveryRaised; the task's row becomes RunRow(...), no other row changes, and the committed statuses are Commits(...) |
| Worker.HandleTask | app/worker.py:40-80 | for a parsed id: LoadRaised iff the lookup raises, TaskNotFound iff the id is unknown, SkippedFinal with the status iff it is final, nothing written in these cases; otherwise the task is run as RunTask states |
| Worker.HandleMessage | app/worker.py:25-80 | the outcome is fixed by the body, the store and the inputs. Unparsable body: MalformedBody. No session factory: NoSessionFactory. Lookup raises: LoadRaised (message rejected). Unknown id: TaskNotFound. Final status: SkippedFinal with that status. Nothing is written in these cases. Otherwise the task is run: Processed iff the work succeeds, RecoveryRaised (message rejected) iff it fails and the recovery raises, ProcessingFailed with the exception text otherwise; the row becomes RunRow(...) and the commits are Commits(...); other rows are unchanged |
| Worker.HandlerWritesOnlyLifecycleStatuses | app/worker.py:54-75 | the handler commits only IN_PROGRESS, COMPLETED or FAILED for the task, apart from a cancel committed meanwhile; it commits nothing only when the IN_PROGRESS commit and its recovery both raise; when it does not end by raising, its last commit is COMPLETED if the work succeeds and FAILED otherwise; when it ends by raising, it commits neither |
| TaskProcessor.Processor.constructor | app/services/task_processor.py:10-16 | a new processor is not initialised and holds no handles |
| TaskProcessor.Processor.Initialize | app/services/task_processor.py:18-38 | once initialised it does nothing; otherwise each step stores its handle up to the step that raises; the flag is set iff all five steps succeed; on success the durable exchange and queue are declared and bound with the routing key on a new connection |
| TaskProcessor.Processor.Enqueue | app/services/task_processor.py:40-50 | initialises first: an initialised processor keeps its connection, channel, exchange, queue and bindings; otherwise they become what Initialize stores, up to the step that raises; exactly one persistent message carrying the id's text, on the tasks exchange with the task routing key, is published iff initialisation and the publish both succeed |
| TaskProcessor.Processor.Close | app/services/task_processor.py:52-56 | with no connection, nothing changes; otherwise the connection is closed and the flag cleared, so the next enqueue reconnects |
| TaskProcessor.Registry.constructor | app/services/task_processor.py:8 | the class-level instance slot starts empty |
| TaskProcessor.Registry.GetTaskProcessor | app/services/task_processor.py:59-63 | returns the stored instance; the first call creates a fresh, uninitialised processor and stores it |
| TaskProcessor.SameProcessorTwice | tests/test_unit.py:52-57 | two calls to get_task_processor return the same object |
| TasksEndpoints.ReadAll | app/api/v1/endpoints/tasks.py:55-76 | the response list has one read view per row, in order |
| TasksEndpoints.CreateTask | app/api/v1/endpoints/tasks.py:24-52 | 422 with the validation errors iff the payload is invalid; 500 when the title column refuses the title; in both cases the table, row order, id sequence and status log are unchanged. Otherwise 201 with the sequence's next id, the sequence advanced by one, the id appended to the row order, NEW logged, and a new NEW row holding the title as stored, the payload's description and priority and the request time as creation time, and exactly one background enqueue of the id's decimal text |
| TasksEndpoints.StatusQuery | app/api/v1/endpoints/tasks.py:64 | the status query parameter is refused iff it is given and names no status; absent means no filter; otherwise the filter is the status with that name |
| TasksEndpoints.ListTasks | app/api/v1/endpoints/tasks.py:55-76 | 422 iff skip < 0, limit ≤ 0 or status is not a status name; otherwise 200 with the store's listing: at most `limit` stored rows matching the filters |
| TasksEndpoints.GetTask | app/api/v1/endpoints/tasks.py:79-99 | 404 "Task not found" iff the id is unknown, otherwise 200 with the row's read view |
| TasksEndpoints.CancelTask | app/api/v1/endpoints/tasks.py:102-125 | 400 "Cannot cancel task" iff the id is unknown or its status is final, with nothing changed; otherwise 200 with status CANCELLED, the table becoming Cancelled(old, id) and exactly one CANCELLED write committed; the row order and id sequence are kept in both cases |
| TasksEndpoints.GetTaskStatus | app/api/v1/endpoints/tasks.py:128-149 | 404 "Task not found" iff the id is unknown, otherwise 200 with the stored status |
| Scenarios.CreatePublishProcess | tests/test_integration.py:147-197 | create, publish and consume with successful work: 201 with a NEW task, then Processed, and the status reads COMPLETED with the success result and both timestamps |
| Scenarios.CancelBeforeDelivery | tests/test_integration.py:122-138 | cancelling a new task answers 200 CANCELLED and a second cancel 400; the consumer then skips the task, which stays CANCELLED and never gets a start time |
| Scenarios.UnknownId | tests/test_integration.py:140-144 | for an unknown id, detail and status answer 404, cancel answers 400 and the consumer drops the message; the table, row order, id sequence and status log are all unchanged |
| Scenarios.CancelDuringWork | app/worker.py:54-67 | a cancel committed while the work runs is committed and then overwritten: the final status reads COMPLETED |
| Scenarios.StuckThenDeliveredAgain | app/worker.py:26-75 | a run whose COMPLETED commit and recovery both raise ends RecoveryRaised (the message is dropped) with the status reading IN_PROGRESS; only if the same id is delivered again by other means is the task run again, and failing work then leaves it FAILED with the error and the new start time, but no finish time |
| Scenarios.PublisherLifecycle | app/services/task_processor.py:18-56 | a failed initialisation leaves the flag clear and the next call connects again; an initialised processor ignores a further call; after close, enqueue reconnects and publishes once — three connections in all |

## Left out

- Broker and database I/O are not modelled. The connection is a serial number, the broker's
  state is ghost fields, and the database is the store's map. The raises that are modelled
  are inputs: each step of the publisher's initialisation and its publish; the consumer's
  row lookup, its IN_PROGRESS and COMPLETED commits, the work, and its recovery (rollback or
  FAILED commit). A database error in the HTTP handlers is modelled only for a title the
  column refuses; other failures of their queries and commits are not.
- The consumer's main loop (app/worker.py:83-134), the application startup (app/main.py) and
  the session dependency (app/db/session.py) are not part of this model.
- Clocks are inputs: `datetime.utcnow()` and `datetime.now(...)` become `Time` parameters.
  Timestamps are opaque integers, with no time-zone handling. The two-second sleep is not
  modelled.
- The message body's byte decoding is not modelled; the body is taken as text.
- TaskIdText.ParseInt: only ASCII digits and ASCII whitespace are modelled. Python's `int()`
  also accepts other Unicode digits and spaces.
- The async sessions are not modelled. One interleaving is: a cancel committing between the
  consumer's two commits. Other interleavings of concurrent requests are not.
- TaskRepository.TaskStore.Create: a failed insert is modelled as leaving the id sequence
  unchanged. PostgreSQL would have consumed a value from the sequence.
- TasksEndpoints.ListTasks, TaskRepository.TaskStore.GetAll: a priority filter string that
  names no priority matches no row here, so ListTasks answers 200 with no rows. PostgreSQL
  would reject the string as an invalid enum value, and ListTasks would answer 500.
- TaskRepository.Page, TaskRepository.Select, TaskRepository.TaskStore.GetAll,
  TasksEndpoints.ListTasks: the element-by-element contract of Page and the exact listing of
  GetAll and ListTasks are stated for insertion order. The source promises no order, so which
  rows an OFFSET/LIMIT page holds is fixed only in the model.
- TaskRepository.TaskStore.GetAll: `skip` and `limit` are natural numbers. Negative values
  never reach the repository, because TasksEndpoints.ListTasks answers them with 422.
- TaskProcessor.Processor.Close: a failure of `connection.close()` is not modelled.
- The robust connection's automatic reconnection is not modelled.
- A publish whose background task fails after the 201 has been sent is modelled only as
  Enqueue returning false. Such a task stays NEW and is never consumed.
- TaskModel.Task: the id column is a 32-bit INTEGER, but the model's ids are unbounded
  integers. An id outside the 32-bit range makes asyncpg raise. A path id like that gets a
  500 from TasksEndpoints.GetTask, GetTaskStatus and CancelTask, where the model answers
  404 or 400. In Worker.HandleMessage it raises out of the lookup, where the model reports
  TaskNotFound. The id sequence's own overflow is not modelled either.
- TaskIdText.ParseInt: Python's `int()` refuses text of more than 4300 digits, and `str()`
  refuses an integer that long. TaskIdText.DecimalRoundTrip is stated for every integer;
  it holds for every id the 32-bit column can hold.
- TaskSchemas.ParseRead: stricter than pydantic's lax mode. Pydantic also accepts a numeric
  string such as "123" for `id: int`, as in the object at tests/test_unit.py:25-35, and a
  date-time string for `created_at`. The model rejects both; its ids are integers and its
  times are opaque integers.
- Logging (structlog and app/core/logging.py) is not modelled.
- Alembic migrations are not modelled.
