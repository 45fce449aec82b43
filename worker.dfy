/** The consumer's handling of one queue message (app/worker.py, handle_message): decode the
    id, load the task, skip it if it has ended, otherwise commit IN_PROGRESS, run the work and
    commit COMPLETED or FAILED. The work, the clock, the session factory and the database
    calls that raise are inputs. */
module Worker {
  import opened Wrappers
  import opened TaskModel
  import opened TaskIdText
  import opened TaskRepository

  /** The `result` written for a task whose work succeeded. */
  const SuccessResult: string := "Processed successfully"

  /** How handling an eligible task goes. Each failure is caught by the handler, which rolls
      back and records the exception text, unless the recovery itself raises. */
  datatype WorkOutcome =
    | Succeeds
    | StartCommitFails(message: string)   // the commit of IN_PROGRESS raises
    | WorkRaises(message: string)          // the unit of work raises
    | FinishCommitFails(message: string)   // the commit of COMPLETED raises

  /** How the handler returned. `LoadRaised` and `RecoveryRaised` are exceptions that leave the
      handler: the row lookup raised, or the rollback or the FAILED commit after a failure
      raised. The message is then rejected. */
  datatype Handled =
    | MalformedBody(body: string)
    | NoSessionFactory(id: int)
    | LoadRaised(id: int)
    | TaskNotFound(id: int)
    | SkippedFinal(id: int, status: Status)
    | Processed(id: int)
    | ProcessingFailed(id: int, error: string)
    | RecoveryRaised(id: int)

  /** The handler got as far as running the task. */
  predicate Ran(h: Handled)
  {
    h.Processed? || h.ProcessingFailed? || h.RecoveryRaised?
  }

  /** The status values the handler commits for an eligible task, in order; a cancel that the
      API commits while the work runs shows up between them. When the recovery after a failure
      raises, no FAILED is committed. */
  function Commits(id: int, work: WorkOutcome, cancelledMeanwhile: bool, recoveryRaises: bool): seq<StatusWrite>
  {
    if work.StartCommitFails? then (if recoveryRaises then [] else [StatusWrite(id, FAILED)])
    else
      [StatusWrite(id, IN_PROGRESS)]
      + (if cancelledMeanwhile then [StatusWrite(id, CANCELLED)] else [])
      + (if work.Succeeds? then [StatusWrite(id, COMPLETED)]
         else if recoveryRaises then []
         else [StatusWrite(id, FAILED)])
  }

  /** The row after the handler ran a task: the columns the handler never writes are kept. */
  predicate SameDescription(before: Task, after: Task)
  {
    && after.id == before.id && after.title == before.title && after.description == before.description
    && after.priority == before.priority && after.createdAt == before.createdAt
  }

  /** The row as a run of an eligible task leaves it, by how the run ended. The work's
      success overwrites a cancel committed meanwhile; a failure whose recovery raises leaves
      what was committed before it. */
  function RunRow(before: Task, work: WorkOutcome, recoveryRaises: bool, cancelledMeanwhile: bool,
                  startedClock: Time, finishedClock: Time): (after: Task)
    ensures SameDescription(before, after)
    ensures work.Succeeds? ==>
              && after.status == COMPLETED && after.result == Some(SuccessResult)
              && after.startedAt == Some(startedClock) && after.finishedAt == Some(finishedClock)
              && after.error == before.error
    ensures !work.Succeeds? && !recoveryRaises ==>
              && after.status == FAILED && after.error == Some(work.message)
              && after.finishedAt == before.finishedAt && after.result == before.result
              && after.startedAt == (if work.StartCommitFails? then before.startedAt else Some(startedClock))
    ensures !work.Succeeds? && recoveryRaises ==>
              && after.finishedAt == before.finishedAt && after.result == before.result && after.error == before.error
              && (work.StartCommitFails? ==> after == before)
              && (!work.StartCommitFails? ==>
                    after.startedAt == Some(startedClock)
                    && after.status == (if cancelledMeanwhile then CANCELLED else IN_PROGRESS))
  {
    if work.StartCommitFails? then
      if recoveryRaises then before else before.(error := Some(work.message), status := FAILED)
    else
      FinishedRow(StartedRow(before, cancelledMeanwhile, startedClock), work, recoveryRaises, finishedClock)
  }

  /** The committed row once IN_PROGRESS and the start time are in, and a cancel committed
      meanwhile, if any. */
  function StartedRow(before: Task, cancelledMeanwhile: bool, startedClock: Time): Task
  {
    before.(status := if cancelledMeanwhile then CANCELLED else IN_PROGRESS, startedAt := Some(startedClock))
  }

  /** The row after the final commit over `current`: COMPLETED with the result and the finish
      time, or FAILED with the exception text; unchanged when the recovery raises. */
  function FinishedRow(current: Task, work: WorkOutcome, recoveryRaises: bool, finishedClock: Time): Task
  {
    if work.Succeeds? then
      current.(finishedAt := Some(finishedClock), result := Some(SuccessResult), status := COMPLETED)
    else if recoveryRaises then current
    else current.(error := Some(work.message), status := FAILED)
  }

  /** The part of handle_message after the final-status check: commit IN_PROGRESS and the start
      time, run the work, then commit COMPLETED with the result and the finish time; any
      exception is caught, the session rolled back, and FAILED with the exception text
      committed. `recoveryRaises` makes that rollback or FAILED commit raise in turn. */
  method RunTask(store: TaskStore, id: int, work: WorkOutcome, recoveryRaises: bool, cancelMeanwhile: bool,
                 startedClock: Time, finishedClock: Time)
    returns (h: Handled)
    requires store.Valid() && Unfinished(store.tasks, id)
    modifies store
    ensures store.Valid()
    ensures store.order == old(store.order) && store.nextId == old(store.nextId)
    ensures h == if work.Succeeds? then Processed(id)
                 else if recoveryRaises then RecoveryRaised(id)
                 else ProcessingFailed(id, work.message)
    ensures store.tasks == old(store.tasks)[id := RunRow(old(store.tasks)[id], work, recoveryRaises,
                                                         cancelMeanwhile, startedClock, finishedClock)]
    ensures store.log == old(store.log) + Commits(id, work, cancelMeanwhile && !work.StartCommitFails?, recoveryRaises)
  {
    // The session's copy of the row, moved to IN_PROGRESS.
    var task := store.tasks[id].(status := IN_PROGRESS, startedAt := Some(startedClock));
    if work.StartCommitFails? {
      if recoveryRaises {
        assert old(store.tasks)[id := old(store.tasks)[id]] == old(store.tasks);
        return RecoveryRaised(id);
      }
      // Rollback drops the uncommitted changes; the error and FAILED are written over the
      // committed row.
      store.Persist(store.tasks[id].(error := Some(work.message), status := FAILED));
      return ProcessingFailed(id, work.message);
    }
    ghost var started := StartedRow(old(store.tasks)[id], cancelMeanwhile, startedClock);
    ghost var startWrites := [StatusWrite(id, IN_PROGRESS)] + (if cancelMeanwhile then [StatusWrite(id, CANCELLED)] else []);
    store.Persist(task);
    if cancelMeanwhile {
      var _ := store.CancelTask(id);
    }
    assert store.tasks == old(store.tasks)[id := started];
    assert store.log == old(store.log) + startWrites;
    h := FinishRun(store, id, work, recoveryRaises, finishedClock);
    ghost var finished := FinishedRow(started, work, recoveryRaises, finishedClock);
    assert RunRow(old(store.tasks)[id], work, recoveryRaises, cancelMeanwhile, startedClock, finishedClock) == finished;
    UpdateTwice(old(store.tasks), id, started, finished);
    ghost var endWrites := if work.Succeeds? then [StatusWrite(id, COMPLETED)]
                           else if recoveryRaises then [] else [StatusWrite(id, FAILED)];
    assert Commits(id, work, cancelMeanwhile, recoveryRaises) == startWrites + endWrites;
    AppendTwice(old(store.log), startWrites, endWrites);
  }

  /** Writing a key twice keeps only the second value. */
  lemma UpdateTwice<K, V>(m: map<K, V>, k: K, first: V, second: V)
    ensures m[k := first][k := second] == m[k := second]
  {
  }

  /** Appending in two steps is appending the concatenation. */
  lemma AppendTwice<T>(s: seq<T>, a: seq<T>, b: seq<T>)
    ensures s + a + b == s + (a + b)
  {
  }

  /** The end of a run, once IN_PROGRESS is committed: the final commit writes the columns this
      session changed over the current row, without looking at its status again; a failure is
      recorded as FAILED with its text unless that recovery raises. */
  method FinishRun(store: TaskStore, id: int, work: WorkOutcome, recoveryRaises: bool, finishedClock: Time)
    returns (h: Handled)
    requires store.Valid() && id in store.tasks && !work.StartCommitFails?
    modifies store
    ensures store.Valid()
    ensures store.order == old(store.order) && store.nextId == old(store.nextId)
    ensures h == if work.Succeeds? then Processed(id)
                 else if recoveryRaises then RecoveryRaised(id)
                 else ProcessingFailed(id, work.message)
    ensures store.tasks == old(store.tasks)[id := FinishedRow(old(store.tasks)[id], work, recoveryRaises, finishedClock)]
    ensures store.log == old(store.log) +
              (if work.Succeeds? then [StatusWrite(id, COMPLETED)]
               else if recoveryRaises then []
               else [StatusWrite(id, FAILED)])
  {
    if work.Succeeds? {
      store.Persist(store.tasks[id].(finishedAt := Some(finishedClock), result := Some(SuccessResult), status := COMPLETED));
      h := Processed(id);
    } else if recoveryRaises {
      h := RecoveryRaised(id);
    } else {
      store.Persist(store.tasks[id].(error := Some(work.message), status := FAILED));
      h := ProcessingFailed(id, work.message);
    }
  }

  /** handle_message once the id is decoded and the session factory is there: load the row
      (`loadRaises` makes the lookup raise), drop an unknown id, skip a task that has ended,
      and run any other. */
  method HandleTask(store: TaskStore, id: int, loadRaises: bool, work: WorkOutcome, recoveryRaises: bool,
                    cancelMeanwhile: bool, startedClock: Time, finishedClock: Time)
    returns (h: Handled)
    requires store.Valid()
    modifies store
    ensures store.Valid()
    ensures store.order == old(store.order) && store.nextId == old(store.nextId)
    ensures !h.MalformedBody? && !h.NoSessionFactory? && h.id == id
    ensures h.LoadRaised? <==> loadRaises
    ensures h.TaskNotFound? <==> !loadRaises && id !in old(store.tasks)
    ensures h.SkippedFinal? <==> !loadRaises && id in old(store.tasks) && IsTerminal(old(store.tasks)[id].status)
    ensures h.SkippedFinal? ==> h.status == old(store.tasks)[id].status
    ensures !Ran(h) ==> store.tasks == old(store.tasks) && store.log == old(store.log)
    ensures Ran(h) <==> !loadRaises && Unfinished(old(store.tasks), id)
    ensures h.Processed? <==> Ran(h) && work.Succeeds?
    ensures h.RecoveryRaised? <==> Ran(h) && !work.Succeeds? && recoveryRaises
    ensures h.ProcessingFailed? ==> h.error == work.message
    ensures Ran(h) ==>
              && store.tasks == old(store.tasks)[id := RunRow(old(store.tasks)[id], work, recoveryRaises,
                                                             cancelMeanwhile, startedClock, finishedClock)]
              && store.log == old(store.log) + Commits(id, work, cancelMeanwhile && !work.StartCommitFails?, recoveryRaises)
  {
    if loadRaises {
      return LoadRaised(id);
    }
    var loaded := store.GetById(id);
    if loaded.None? {
      return TaskNotFound(id);
    }
    var task := loaded.value;
    if IsTerminal(task.status) {
      return SkippedFinal(id, task.status);
    }
    h := RunTask(store, id, work, recoveryRaises, cancelMeanwhile, startedClock, finishedClock);
  }

  /** handle_message. `sessionReady` says whether the session factory has been set up;
      `loadRaises` makes the row lookup raise; `recoveryRaises` makes the rollback or the FAILED
      commit after a failure raise; `cancelMeanwhile` makes a cancel request commit between the
      IN_PROGRESS commit and the final one; `startedClock` and `finishedClock` are the clock's
      two readings. */
  method HandleMessage(store: TaskStore, sessionReady: bool, body: string, loadRaises: bool,
                       work: WorkOutcome, recoveryRaises: bool, cancelMeanwhile: bool,
                       startedClock: Time, finishedClock: Time)
    returns (h: Handled)
    requires store.Valid()
    modifies store
    ensures store.Valid()
    ensures store.order == old(store.order) && store.nextId == old(store.nextId)
    // the early returns
    ensures ParseInt(body).None? <==> h == MalformedBody(body)
    ensures ParseInt(body).Some? ==> !h.MalformedBody? && h.id == ParseInt(body).value
    ensures h.NoSessionFactory? <==> ParseInt(body).Some? && !sessionReady
    ensures h.LoadRaised? <==> ParseInt(body).Some? && sessionReady && loadRaises
    ensures h.TaskNotFound? <==>
              ParseInt(body).Some? && sessionReady && !loadRaises && ParseInt(body).value !in old(store.tasks)
    ensures h.SkippedFinal? <==>
              && ParseInt(body).Some? && sessionReady && !loadRaises && ParseInt(body).value in old(store.tasks)
              && IsTerminal(old(store.tasks)[ParseInt(body).value].status)
    ensures h.SkippedFinal? ==> h.status == old(store.tasks)[h.id].status
    ensures !Ran(h) ==> store.tasks == old(store.tasks) && store.log == old(store.log)
    // an eligible task: any status that has not ended, IN_PROGRESS on redelivery included
    ensures Ran(h) <==>
              ParseInt(body).Some? && sessionReady && !loadRaises && Unfinished(old(store.tasks), ParseInt(body).value)
    ensures h.Processed? <==> Ran(h) && work.Succeeds?
    ensures h.RecoveryRaised? <==> Ran(h) && !work.Succeeds? && recoveryRaises
    ensures h.ProcessingFailed? ==> h.error == work.message
    ensures Ran(h) ==>
              && store.tasks == old(store.tasks)[h.id := RunRow(old(store.tasks)[h.id], work, recoveryRaises,
                                                               cancelMeanwhile, startedClock, finishedClock)]
              && store.log == old(store.log) + Commits(h.id, work, cancelMeanwhile && !work.StartCommitFails?, recoveryRaises)
  {
    var parsed := ParseInt(body);
    if parsed.None? {
      return MalformedBody(body);
    }
    var id := parsed.value;
    if !sessionReady {
      return NoSessionFactory(id);
    }
    h := HandleTask(store, id, loadRaises, work, recoveryRaises, cancelMeanwhile, startedClock, finishedClock);
  }

  /** The handler commits only IN_PROGRESS, COMPLETED and FAILED; any other status in its
      commits is a cancel from the API. It commits nothing only when the IN_PROGRESS commit and
      the recovery both raise. Its last commit is COMPLETED when the work succeeds and FAILED
      when it fails and the recovery does not raise; when the recovery raises, neither is
      committed and the task is left unfinished. */
  lemma {:induction false} HandlerWritesOnlyLifecycleStatuses(id: int, work: WorkOutcome, cancelledMeanwhile: bool,
                                                              recoveryRaises: bool)
    ensures Commits(id, work, cancelledMeanwhile, recoveryRaises) == [] <==> work.StartCommitFails? && recoveryRaises
    ensures forall w :: w in Commits(id, work, cancelledMeanwhile, recoveryRaises) ==>
              w.id == id && (w.status in {IN_PROGRESS, COMPLETED, FAILED} || (cancelledMeanwhile && w.status == CANCELLED))
    ensures work.Succeeds? || !recoveryRaises ==>
              var c := Commits(id, work, cancelledMeanwhile, recoveryRaises);
              c != [] && c[|c| - 1].status == (if work.Succeeds? then COMPLETED else FAILED)
    ensures !work.Succeeds? && recoveryRaises ==>
              forall w :: w in Commits(id, work, cancelledMeanwhile, recoveryRaises) ==> !IsTerminal(w.status) || w.status == CANCELLED
  {
  }
}
