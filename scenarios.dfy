/** End-to-end runs that compose the handlers, the publisher and the consumer, as the
    integration tests and the service's documented flows describe them. Each states what a
    client observes afterwards, derived from the components' contracts alone. */
module Scenarios {
  import opened Wrappers
  import opened TaskModel
  import opened TaskSchemas
  import opened TaskIdText
  import opened TaskRepository
  import opened TaskProcessor
  import opened Worker
  import opened TasksEndpoints

  /** Create a task, publish its id, let the consumer run it successfully: the task is
      created NEW and ends COMPLETED with the success result and both timestamps. */
  method CreatePublishProcess(store: TaskStore, processor: Processor, c: TaskCreate,
                              now: Time, startedClock: Time, finishedClock: Time)
    returns (created: Response, handled: Handled, status: Response)
    requires store.Valid() && processor.Valid()
    requires |c.title| <= MaxTitleLength
    modifies store, processor
    ensures created.code == HttpCreated && created.body.TaskBody? && created.body.task.status == NEW
    ensures handled == Processed(created.body.task.id)
    ensures status == Response(HttpOk, StatusBody(COMPLETED))
    ensures created.body.task.id in store.tasks
    ensures var t := store.tasks[created.body.task.id];
              t.result == Some(SuccessResult) && t.startedAt == Some(startedClock) && t.finishedAt == Some(finishedClock)
  {
    CreateRoundTrip(c);
    var scheduled;
    created, scheduled := CreateTask(store, CreateJson(c), now);
    var id := created.body.task.id;
    var published := processor.Enqueue(scheduled[0], None, false);
    assert processor.published[|processor.published| - 1] == TaskMessage(DecimalString(id));
    DecimalRoundTrip(id);
    handled := HandleMessage(store, true, TaskMessage(DecimalString(id)).body, false, Succeeds, false, false, startedClock, finishedClock);
    status := GetTaskStatus(store, id);
  }

  /** Create a task and cancel it before its message is consumed: the cancel answers 200
      CANCELLED, a second cancel 400, and the consumer skips the task, which stays CANCELLED
      and never gets a start time. */
  method CancelBeforeDelivery(store: TaskStore, c: TaskCreate, now: Time, startedClock: Time, finishedClock: Time)
    returns (first: Response, second: Response, handled: Handled)
    requires store.Valid()
    requires |c.title| <= MaxTitleLength
    modifies store
    ensures first == Response(HttpOk, StatusBody(CANCELLED))
    ensures second == Response(HttpBadRequest, Detail(CannotCancelDetail))
    ensures handled.SkippedFinal? && handled.status == CANCELLED
    ensures handled.id in store.tasks && store.tasks[handled.id].status == CANCELLED
    ensures store.tasks[handled.id].startedAt.None?
  {
    CreateRoundTrip(c);
    var created, scheduled := CreateTask(store, CreateJson(c), now);
    var id := created.body.task.id;
    first := CancelTask(store, id);
    second := CancelTask(store, id);
    DecimalRoundTrip(id);
    handled := HandleMessage(store, true, scheduled[0], false, Succeeds, false, false, startedClock, finishedClock);
  }

  /** An id with no task: detail and status answer 404, cancel answers 400, and the consumer
      drops the message; nothing changes. */
  method UnknownId(store: TaskStore, id: int, startedClock: Time, finishedClock: Time)
    returns (detail: Response, status: Response, cancel: Response, handled: Handled)
    requires store.Valid()
    requires id !in store.tasks
    modifies store
    ensures detail.code == HttpNotFound && status.code == HttpNotFound
    ensures cancel.code == HttpBadRequest
    ensures handled == TaskNotFound(id)
    ensures store.tasks == old(store.tasks) && store.order == old(store.order)
    ensures store.nextId == old(store.nextId) && store.log == old(store.log)
  {
    detail := GetTask(store, id);
    status := GetTaskStatus(store, id);
    cancel := CancelTask(store, id);
    DecimalRoundTrip(id);
    handled := HandleMessage(store, true, DecimalString(id), false, Succeeds, false, false, startedClock, finishedClock);
  }

  /** A cancel committed while the work runs is overwritten by the final commit: CANCELLED is
      written and then replaced by COMPLETED. */
  method CancelDuringWork(store: TaskStore, c: TaskCreate, now: Time, startedClock: Time, finishedClock: Time)
    returns (handled: Handled, status: Response)
    requires store.Valid()
    requires |c.title| <= MaxTitleLength
    modifies store
    ensures handled.Processed?
    ensures StatusWrite(handled.id, CANCELLED) in store.log
    ensures status == Response(HttpOk, StatusBody(COMPLETED))
  {
    CreateRoundTrip(c);
    var created, scheduled := CreateTask(store, CreateJson(c), now);
    var id := created.body.task.id;
    DecimalRoundTrip(id);
    ghost var before := store.log;
    handled := HandleMessage(store, true, scheduled[0], false, Succeeds, false, true, startedClock, finishedClock);
    assert store.log == before + Commits(id, Succeeds, true, false);
    assert StatusWrite(id, CANCELLED) == store.log[|before| + 1];
    status := GetTaskStatus(store, id);
  }

  /** A database failure during a run can leave a task stuck: the COMPLETED commit raises, and
      so does the FAILED commit after it, so the handler raises with IN_PROGRESS committed.
      The message is rejected without requeue and the id is published only once, so nothing
      delivers it again on its own. Only another delivery of the same id (a broker redelivery
      of a message left unacknowledged when a consumer's connection dropped, or a manual
      republish) runs the task again; here the work then raises and the task ends FAILED with
      the work's error. */
  method StuckThenDeliveredAgain(store: TaskStore, c: TaskCreate, now: Time, outage: string, message: string,
                              firstClock: Time, startedClock: Time, finishedClock: Time)
    returns (first: Handled, stuck: Response, second: Handled)
    requires store.Valid()
    requires |c.title| <= MaxTitleLength
    modifies store
    ensures first.RecoveryRaised?
    ensures stuck == Response(HttpOk, StatusBody(IN_PROGRESS))
    ensures second == ProcessingFailed(first.id, message)
    ensures first.id in store.tasks
    ensures store.tasks[first.id].status == FAILED && store.tasks[first.id].error == Some(message)
    ensures store.tasks[first.id].finishedAt.None? && store.tasks[first.id].startedAt == Some(startedClock)
  {
    CreateRoundTrip(c);
    var created, scheduled := CreateTask(store, CreateJson(c), now);
    var id := created.body.task.id;
    DecimalRoundTrip(id);
    first := HandleMessage(store, true, scheduled[0], false, FinishCommitFails(outage), true, false, firstClock, finishedClock);
    stuck := GetTaskStatus(store, id);
    second := HandleMessage(store, true, scheduled[0], false, WorkRaises(message), false, false, startedClock, finishedClock);
  }

  /** A failed initialisation leaves the publisher uninitialised and the next call retries
      from a new connection; once initialised, a call that would fail does nothing; after close,
      enqueue initialises again on yet another connection before publishing. */
  method PublisherLifecycle(p: Processor, taskId: string)
    requires p.Valid() && !p.initialized
    modifies p
    ensures p.initialized
    ensures p.connects == old(p.connects) + 3
    ensures p.published == old(p.published) + [TaskMessage(taskId)]
  {
    var first := p.Initialize(Some(DeclareQueue));
    assert !first && !p.initialized && p.connects == old(p.connects) + 1;
    var second := p.Initialize(None);
    assert second && p.connects == old(p.connects) + 2;
    var third := p.Initialize(Some(Connect));
    assert third && p.connects == old(p.connects) + 2;
    p.Close();
    assert !p.initialized;
    var sent := p.Enqueue(taskId, None, false);
  }
}
