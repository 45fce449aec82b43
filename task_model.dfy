/** The task table: its two closed enumerations, the record stored per task and the
    column defaults applied when a row is inserted (app/db/models/task.py). */
module TaskModel {
  import opened Wrappers

  /** Task priority; each value is written on the wire and in the database under its own name. */
  datatype Priority = LOW | MEDIUM | HIGH

  /** Task lifecycle status; each value is written under its own name. */
  datatype Status = NEW | PENDING | IN_PROGRESS | COMPLETED | FAILED | CANCELLED

  function PriorityName(p: Priority): string
  {
    match p
    case LOW => "LOW"
    case MEDIUM => "MEDIUM"
    case HIGH => "HIGH"
  }

  function StatusName(s: Status): string
  {
    match s
    case NEW => "NEW"
    case PENDING => "PENDING"
    case IN_PROGRESS => "IN_PROGRESS"
    case COMPLETED => "COMPLETED"
    case FAILED => "FAILED"
    case CANCELLED => "CANCELLED"
  }

  /** The wire strings that name a priority, and those that name a status. */
  const PriorityNames: set<string> := {"LOW", "MEDIUM", "HIGH"}
  const StatusNames: set<string> := {"NEW", "PENDING", "IN_PROGRESS", "COMPLETED", "FAILED", "CANCELLED"}

  /** Enum lookup by value: the member whose string is `s`, if there is one. */
  function ParsePriority(s: string): (r: Option<Priority>)
    ensures r.Some? ==> PriorityName(r.value) == s
  {
    if s == "LOW" then Some(LOW)
    else if s == "MEDIUM" then Some(MEDIUM)
    else if s == "HIGH" then Some(HIGH)
    else None
  }

  function ParseStatus(s: string): (r: Option<Status>)
    ensures r.Some? ==> StatusName(r.value) == s
  {
    if s == "NEW" then Some(NEW)
    else if s == "PENDING" then Some(PENDING)
    else if s == "IN_PROGRESS" then Some(IN_PROGRESS)
    else if s == "COMPLETED" then Some(COMPLETED)
    else if s == "FAILED" then Some(FAILED)
    else if s == "CANCELLED" then Some(CANCELLED)
    else None
  }

  /** Parsing and printing a priority are inverse to each other, in both directions. */
  lemma PriorityRoundTrip(p: Priority, s: string)
    ensures ParsePriority(PriorityName(p)) == Some(p)
    ensures ParsePriority(s) == Some(p) <==> PriorityName(p) == s
  {
  }

  lemma StatusRoundTrip(st: Status, s: string)
    ensures ParseStatus(StatusName(st)) == Some(st)
    ensures ParseStatus(s) == Some(st) <==> StatusName(st) == s
  {
  }

  /** Exactly the three priority names are accepted. */
  lemma ParsePriorityAcceptsExactlyNames(s: string)
    ensures ParsePriority(s).Some? <==> s in PriorityNames
  {
  }

  /** Exactly the six status names are accepted; anything else, e.g. "NOT_A_STATUS", is not. */
  lemma ParseStatusAcceptsExactlyNames(s: string)
    ensures ParseStatus(s).Some? <==> s in StatusNames
    ensures ParseStatus("NOT_A_STATUS") == None
  {
  }

  /** Distinct values have distinct names, so each name identifies one value. */
  lemma NamesInjective(p: Priority, q: Priority, a: Status, b: Status)
    ensures PriorityName(p) == PriorityName(q) ==> p == q
    ensures StatusName(a) == StatusName(b) ==> a == b
  {
    StatusRoundTrip(a, StatusName(b));
    PriorityRoundTrip(p, PriorityName(q));
  }

  /** COMPLETED, FAILED and CANCELLED end a task's lifecycle. */
  predicate IsTerminal(s: Status)
  {
    s == COMPLETED || s == FAILED || s == CANCELLED
  }

  /** Timestamps are opaque clock readings. */
  type Time = int

  /** `title` is a VARCHAR(255) column. */
  const MaxTitleLength: nat := 255

  /** One row of the task table. Nullable columns are options. */
  datatype Task = Task(
    id: int,
    title: string,
    description: Option<string>,
    priority: Priority,
    status: Status,
    createdAt: Time,
    startedAt: Option<Time>,
    finishedAt: Option<Time>,
    result: Option<string>,
    error: Option<string>)

  predicate AllSpaces(s: string)
  {
    forall i :: 0 <= i < |s| ==> s[i] == ' '
  }

  /** What the title column keeps of a value. A value that fits is kept as it is. A longer
      value whose characters past the limit are all spaces is cut to the limit; any other
      longer value is refused, and the commit fails. */
  function StoredTitle(s: string): (r: Option<string>)
    ensures r.None? <==> |s| > MaxTitleLength && !AllSpaces(s[MaxTitleLength..])
    ensures r.Some? ==> |r.value| <= MaxTitleLength && |r.value| <= |s| && r.value == s[..|r.value|] && AllSpaces(s[|r.value|..])
    ensures |s| <= MaxTitleLength ==> r == Some(s)
    ensures r.Some? && |s| > MaxTitleLength ==> r.value == s[..MaxTitleLength]
  {
    if |s| <= MaxTitleLength then Some(s)
    else if AllSpaces(s[MaxTitleLength..]) then Some(s[..MaxTitleLength])
    else None
  }

  /** The column constraints a row must meet to be committed. */
  predicate FitsColumns(t: Task)
  {
    |t.title| <= MaxTitleLength
  }

  /** The row that an insert produces from the column values it is given: a priority that
      is not given defaults to MEDIUM, a status to NEW, and the execution columns stay null.
      `createdAt` is the value written, either given or the server clock's. */
  function Inserted(id: int, title: string, description: Option<string>, priority: Option<Priority>,
                    status: Option<Status>, createdAt: Time): (t: Task)
    ensures t.id == id && t.title == title && t.description == description && t.createdAt == createdAt
    ensures priority.None? ==> t.priority == MEDIUM
    ensures priority.Some? ==> t.priority == priority.value
    ensures status.None? ==> t.status == NEW
    ensures status.Some? ==> t.status == status.value
    ensures t.startedAt.None? && t.finishedAt.None? && t.result.None? && t.error.None?
  {
    Task(id, title, description,
         match priority case Some(p) => p case None => MEDIUM,
         match status case Some(s) => s case None => NEW,
         createdAt, None, None, None, None)
  }
}
