/** The task store (app/repositories/task_repository.py): the task table as a map from id to
    row, with the physical row order and the id sequence. Queries are functions over the rows;
    operations that write a row are methods that change exactly that row and commit it. */
module TaskRepository {
  import opened Wrappers
  import opened TaskModel
  import opened TaskSchemas

  /** One committed status value, as the database sees commits happen. */
  datatype StatusWrite = StatusWrite(id: int, status: Status)

  /** A priority filter is applied only when the string is present and not empty. */
  predicate PriorityFilterOn(priority: Option<string>)
  {
    priority.Some? && priority.value != ""
  }

  /** The WHERE clause of the listing query. */
  predicate Matches(t: Task, status: Option<Status>, priority: Option<string>)
  {
    && (status.None? || t.status == status.value)
    && (!PriorityFilterOn(priority) || PriorityName(t.priority) == priority.value)
  }

  /** The rows that satisfy the WHERE clause, in row order. */
  function Filter(rows: seq<Task>, status: Option<Status>, priority: Option<string>): (r: seq<Task>)
    ensures |r| <= |rows|
    ensures forall t :: t in r <==> t in rows && Matches(t, status, priority)
  {
    if rows == [] then []
    else
      var rest := Filter(rows[1..], status, priority);
      assert forall t :: t in rows <==> t == rows[0] || t in rows[1..];
      if Matches(rows[0], status, priority) then [rows[0]] + rest else rest
  }

  /** OFFSET `skip` LIMIT `limit`. */
  function Page(rows: seq<Task>, skip: nat, limit: nat): (r: seq<Task>)
    ensures |r| <= limit
    ensures skip <= |rows| ==> |r| == if |rows| - skip < limit then |rows| - skip else limit
    ensures skip >= |rows| ==> r == []
    ensures forall i :: 0 <= i < |r| ==> skip + i < |rows| && r[i] == rows[skip + i]
  {
    var rest := if skip <= |rows| then rows[skip..] else [];
    if limit <= |rest| then rest[..limit] else rest
  }

  /** The listing query: filter first, then skip and take. */
  function Select(rows: seq<Task>, status: Option<Status>, priority: Option<string>, skip: nat, limit: nat): (r: seq<Task>)
    ensures |r| <= limit && |r| <= |rows|
    ensures skip == 0 && |rows| <= limit ==> r == Filter(rows, status, priority)
  {
    Page(Filter(rows, status, priority), skip, limit)
  }

  /** A listing never holds more than `limit` rows, and holds only rows that exist and match. */
  lemma SelectSound(rows: seq<Task>, status: Option<Status>, priority: Option<string>, skip: nat, limit: nat)
    ensures |Select(rows, status, priority, skip, limit)| <= limit
    ensures forall t :: t in Select(rows, status, priority, skip, limit) ==> t in rows && Matches(t, status, priority)
  {
    var f := Filter(rows, status, priority);
    var r := Select(rows, status, priority, skip, limit);
    forall t | t in r
      ensures t in rows && Matches(t, status, priority)
    {
      var i :| 0 <= i < |r| && r[i] == t;
      assert t == f[skip + i];
    }
  }

  /** With no offset and a limit no smaller than the number of matches, every matching row is listed. */
  lemma SelectComplete(rows: seq<Task>, status: Option<Status>, priority: Option<string>, limit: nat)
    requires |Filter(rows, status, priority)| <= limit
    ensures forall t :: t in rows && Matches(t, status, priority) ==> t in Select(rows, status, priority, 0, limit)
  {
    var f := Filter(rows, status, priority);
    assert Select(rows, status, priority, 0, limit) == f by {
      assert f[0..] == f;
    }
  }

  /** Filtering by a priority's name lists only tasks of that priority. */
  lemma SelectByPriority(rows: seq<Task>, p: Priority, status: Option<Status>, skip: nat, limit: nat)
    ensures forall t :: t in Select(rows, status, Some(PriorityName(p)), skip, limit) ==> t.priority == p
  {
    SelectSound(rows, status, Some(PriorityName(p)), skip, limit);
    forall t | t in Select(rows, status, Some(PriorityName(p)), skip, limit)
      ensures t.priority == p
    {
      NamesInjective(t.priority, p, NEW, NEW);
    }
  }

  /** The id is known and its task has not reached a final status: such a task may be
      cancelled, and a consumer that receives its id executes it. */
  predicate Unfinished(m: map<int, Task>, id: int)
  {
    id in m && !IsTerminal(m[id].status)
  }

  /** The table after a cancel request. */
  function Cancelled(m: map<int, Task>, id: int): (r: map<int, Task>)
    ensures r.Keys == m.Keys
    ensures Unfinished(m, id) ==> r[id].status == CANCELLED
    ensures !Unfinished(m, id) ==> r == m
  {
    if Unfinished(m, id) then m[id := m[id].(status := CANCELLED)] else m
  }

  /** The table after an unguarded status update. */
  function StatusUpdated(m: map<int, Task>, id: int, s: Status): (r: map<int, Task>)
    ensures r.Keys == m.Keys
    ensures id in m ==> r[id].status == s
    ensures id !in m ==> r == m
  {
    if id in m then m[id := m[id].(status := s)] else m
  }

  /** Cancel touches at most the one row and in it only the status; a cancelled row is CANCELLED. */
  lemma CancelFrame(m: map<int, Task>, id: int)
    ensures Cancelled(m, id).Keys == m.Keys
    ensures forall k :: k in m && k != id ==> Cancelled(m, id)[k] == m[k]
    ensures Unfinished(m, id) ==> Cancelled(m, id)[id].status == CANCELLED
    ensures id in m ==> Cancelled(m, id)[id] == m[id].(status := Cancelled(m, id)[id].status)
  {
  }

  /** A second cancel is refused and changes nothing. */
  lemma CancelTwice(m: map<int, Task>, id: int)
    ensures !Unfinished(Cancelled(m, id), id)
    ensures Cancelled(Cancelled(m, id), id) == Cancelled(m, id)
  {
  }

  /** An unguarded update to a final status makes the task uncancellable. */
  lemma UpdateToFinalBlocksCancel(m: map<int, Task>, id: int, s: Status)
    requires IsTerminal(s)
    ensures !Unfinished(StatusUpdated(m, id, s), id)
    ensures Cancelled(StatusUpdated(m, id, s), id) == StatusUpdated(m, id, s)
  {
  }

  /** The update touches at most the one row and in it only the status, with no transition guard. */
  lemma UpdateFrame(m: map<int, Task>, id: int, s: Status)
    ensures StatusUpdated(m, id, s).Keys == m.Keys
    ensures forall k :: k in m && k != id ==> StatusUpdated(m, id, s)[k] == m[k]
    ensures id in m ==> StatusUpdated(m, id, s)[id] == m[id].(status := s)
  {
  }

  /** The rows stored under the given ids, in that order. */
  function RowsOf(ids: seq<int>, m: map<int, Task>): (r: seq<Task>)
    requires forall i :: 0 <= i < |ids| ==> ids[i] in m
    ensures |r| == |ids|
    ensures forall i :: 0 <= i < |ids| ==> r[i] == m[ids[i]]
  {
    if ids == [] then [] else [m[ids[0]]] + RowsOf(ids[1..], m)
  }

  class TaskStore {
    /** The committed rows, keyed by id. */
    var tasks: map<int, Task>
    /** The order the rows sit in the table. */
    var order: seq<int>
    /** The next value of the id sequence. */
    var nextId: int
    /** Every status value committed, in commit order. */
    ghost var log: seq<StatusWrite>

    ghost predicate Valid()
      reads this
    {
      && nextId >= 1
      && (forall id :: id in tasks ==> tasks[id].id == id && 1 <= id < nextId && FitsColumns(tasks[id]))
      && (forall i :: 0 <= i < |order| ==> order[i] in tasks)
      && (forall id :: id in tasks ==> id in order)
      && (forall i, j :: 0 <= i < j < |order| ==> order[i] != order[j])
    }

    constructor ()
      ensures Valid()
      ensures tasks == map[] && order == [] && nextId == 1 && log == []
    {
      tasks, order, nextId := map[], [], 1;
      log := [];
    }

    /** The table's rows, in row order. */
    function Rows(): seq<Task>
      reads this
      requires Valid()
    {
      RowsOf(order, tasks)
    }

    /** The rows are exactly the stored tasks, each once. */
    lemma RowsAreStored()
      requires Valid()
      ensures |Rows()| == |tasks|
      ensures forall t :: t in Rows() <==> t.id in tasks && tasks[t.id] == t
      ensures forall i, j :: 0 <= i < j < |Rows()| ==> Rows()[i].id != Rows()[j].id
    {
      var rows := Rows();
      assert forall t :: t in rows <==> t.id in tasks && tasks[t.id] == t by {
        forall t: Task | t.id in tasks && tasks[t.id] == t
          ensures t in rows
        {
          var i :| 0 <= i < |order| && order[i] == t.id;
          assert rows[i] == t;
        }
        forall t | t in rows
          ensures t.id in tasks && tasks[t.id] == t
        {
          var i :| 0 <= i < |rows| && rows[i] == t;
        }
      }
      assert |rows| == |tasks| by {
        var listed := set i | 0 <= i < |order| :: order[i];
        forall id | id in tasks ensures id in listed {
          var i :| 0 <= i < |order| && order[i] == id;
        }
        assert tasks.Keys == listed;
        DistinctCardinality(order);
      }
    }

    /** create: a new row with the next id, status NEW, the given creation time and the
        payload's title, description and priority. A title too long for its column is cut to
        the limit when only spaces lie beyond it; otherwise the commit fails and nothing is
        stored. */
    method Create(data: TaskCreate, now: Time) returns (r: Option<Task>)
      requires Valid()
      modifies this
      ensures Valid()
      ensures r.Some? <==> StoredTitle(data.title).Some?
      ensures r.None? ==> tasks == old(tasks) && order == old(order) && nextId == old(nextId) && log == old(log)
      ensures r.Some? ==>
                && r.value.id == old(nextId) && r.value.id !in old(tasks) && nextId == old(nextId) + 1
                && r.value.title == StoredTitle(data.title).value && r.value.description == data.description
                && r.value.priority == data.priority && r.value.status == NEW && r.value.createdAt == now
                && r.value.startedAt.None? && r.value.finishedAt.None? && r.value.result.None? && r.value.error.None?
                && tasks == old(tasks)[r.value.id := r.value]
                && order == old(order) + [r.value.id]
                && log == old(log) + [StatusWrite(r.value.id, NEW)]
    {
      var title := StoredTitle(data.title);
      if title.None? {
        return None;
      }
      var id := nextId;
      var t := Inserted(id, title.value, data.description, Some(data.priority), Some(NEW), now);
      tasks := tasks[id := t];
      order := order + [id];
      nextId := nextId + 1;
      log := log + [StatusWrite(id, NEW)];
      r := Some(t);
    }

    /** get_by_id: the stored row for a known id, None for an unknown one. */
    method GetById(id: int) returns (r: Option<Task>)
      requires Valid()
      ensures r.Some? <==> id in tasks
      ensures r.Some? ==> r.value == tasks[id] && r.value.id == id
    {
      r := if id in tasks then Some(tasks[id]) else None;
    }

    /** get_all: the rows matching the optional status and priority filters, after skipping
        `skip` matches, at most `limit` of them. */
    method GetAll(status: Option<Status> := None, priority: Option<string> := None, skip: nat := 0, limit: nat := 100)
      returns (r: seq<Task>)
      requires Valid()
      ensures r == Select(Rows(), status, priority, skip, limit)
      ensures |r| <= limit
      ensures forall t :: t in r ==> t.id in tasks && tasks[t.id] == t && Matches(t, status, priority)
    {
      r := Page(Filter(Rows(), status, priority), skip, limit);
      SelectSound(Rows(), status, priority, skip, limit);
      RowsAreStored();
    }

    /** update_status: sets the status of a known task, whatever it was; an unknown id changes nothing. */
    method UpdateStatus(id: int, s: Status) returns (r: Option<Task>)
      requires Valid()
      modifies this
      ensures Valid()
      ensures tasks == StatusUpdated(old(tasks), id, s)
      ensures order == old(order) && nextId == old(nextId)
      ensures r.Some? <==> id in old(tasks)
      ensures r.Some? ==> r.value == tasks[id] && r.value.status == s
      ensures log == old(log) + (if r.Some? then [StatusWrite(id, s)] else [])
    {
      var found := GetById(id);
      if found.Some? {
        var t := found.value.(status := s);
        tasks := tasks[id := t];
        log := log + [StatusWrite(id, s)];
        r := Some(t);
      } else {
        r := None;
      }
    }

    /** cancel_task: a known task that has not ended becomes CANCELLED and is returned; an
        unknown id and a task already COMPLETED, FAILED or CANCELLED both give None. */
    method CancelTask(id: int) returns (r: Option<Task>)
      requires Valid()
      modifies this
      ensures Valid()
      ensures tasks == Cancelled(old(tasks), id)
      ensures order == old(order) && nextId == old(nextId)
      ensures r.Some? <==> Unfinished(old(tasks), id)
      ensures r.Some? ==> r.value == tasks[id] && r.value.status == CANCELLED
      ensures log == old(log) + (if r.Some? then [StatusWrite(id, CANCELLED)] else [])
    {
      var found := GetById(id);
      if found.Some? && !IsTerminal(found.value.status) {
        var t := found.value.(status := CANCELLED);
        tasks := tasks[id := t];
        log := log + [StatusWrite(id, CANCELLED)];
        r := Some(t);
      } else {
        r := None;
      }
    }

    /** A session commit of one changed row. */
    method Persist(t: Task)
      requires Valid()
      requires t.id in tasks && FitsColumns(t)
      modifies this
      ensures Valid()
      ensures tasks == old(tasks)[t.id := t]
      ensures order == old(order) && nextId == old(nextId)
      ensures log == old(log) + [StatusWrite(t.id, t.status)]
    {
      tasks := tasks[t.id := t];
      log := log + [StatusWrite(t.id, t.status)];
    }
  }

  /** A sequence without repetitions has as many distinct elements as it is long. */
  lemma {:induction false} DistinctCardinality(s: seq<int>)
    requires forall i, j :: 0 <= i < j < |s| ==> s[i] != s[j]
    ensures |set i | 0 <= i < |s| :: s[i]| == |s|
  {
    if s != [] {
      var tail := s[1..];
      DistinctCardinality(tail);
      var all := set i | 0 <= i < |s| :: s[i];
      var rest := set i | 0 <= i < |tail| :: tail[i];
      assert all == {s[0]} + rest by {
        forall x | x in all ensures x in {s[0]} + rest {
          var i :| 0 <= i < |s| && s[i] == x;
          if i > 0 { assert tail[i - 1] == x; }
        }
      }
      assert s[0] !in rest by {
        forall i | 0 <= i < |tail| ensures tail[i] != s[0] {
          assert tail[i] == s[i + 1];
        }
      }
    }
  }
}
