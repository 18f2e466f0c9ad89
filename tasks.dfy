// The approval-queue entities shared by the extension's storage service,
// background worker and popup: the task record, the partial update record,
// and the pure sequence operations the queue is built from.
module TaskModel {
  import opened Common

  datatype TaskType = Email | Calendar | Reminder | OtherType(name: string)

  datatype TaskStatus = Pending | Approved | Rejected | Snoozed

  /**
   * The task payload as the object of string fields it is stored as. The
   * calendar payload's `attendees` array and numeric `reminder` are not
   * read by any modelled code, so they have no place here.
   */
  type TaskData = map<string, string>

  /** A queued task; instants are milliseconds since the epoch. */
  datatype Task = Task(
    id: string,
    kind: TaskType,
    status: TaskStatus,
    createdAt: int,
    snoozedUntil: Option<int>,
    data: TaskData)

  /**
   * A partial update. `None` is a key the update object does not carry;
   * `snoozedUntil: Some(None)` is an explicit `snoozedUntil: null`.
   */
  datatype TaskUpdate = TaskUpdate(
    status: Option<TaskStatus>,
    snoozedUntil: Option<Option<int>>,
    data: Option<TaskData>)

  /** A payload field as a template literal prints it: `undefined` when missing. */
  function Field(data: TaskData, key: string): (r: string)
    ensures key in data ==> r == data[key]
    ensures key !in data ==> r == "undefined"
  {
    if key in data then data[key] else "undefined"
  }

  /** An optional payload field: `None` when missing. */
  function OptionalField(data: TaskData, key: string): (r: Option<string>)
    ensures r.Some? <==> key in data
    ensures r.Some? ==> r.value == data[key]
  {
    if key in data then Some(data[key]) else None
  }

  // ---------------------------------------------------------------------
  // Queue queries

  function HasStatus(st: TaskStatus): Task -> bool
  {
    (t: Task) => t.status == st
  }

  function HasId(id: string): Task -> bool
  {
    (t: Task) => t.id == id
  }

  function LacksId(id: string): Task -> bool
  {
    (t: Task) => t.id != id
  }

  /** Tasks with the given status, in queue order. */
  function WithStatus(tasks: seq<Task>, st: TaskStatus): seq<Task>
  {
    Filter(tasks, HasStatus(st))
  }

  function PendingCount(tasks: seq<Task>): nat
  {
    |WithStatus(tasks, Pending)|
  }

  /** Appending one task raises the pending count by one exactly when that task is pending. */
  lemma PendingCountAppend(tasks: seq<Task>, t: Task)
    ensures PendingCount(tasks + [t]) == PendingCount(tasks) + (if t.status == Pending then 1 else 0)
  {
    FilterConcat(tasks, [t], HasStatus(Pending));
  }

  /** `tasks.findIndex(t => t.id === id)`, `None` for -1. */
  function FindIndex(tasks: seq<Task>, id: string): (r: Option<nat>)
    ensures r.Some? ==> r.value < |tasks| && tasks[r.value].id == id
    ensures r.Some? ==> forall j :: 0 <= j < r.value ==> tasks[j].id != id
    ensures r.None? ==> forall j :: 0 <= j < |tasks| ==> tasks[j].id != id
  {
    if tasks == [] then None
    else if tasks[0].id == id then Some(0)
    else match FindIndex(tasks[1..], id)
      case None => None
      case Some(k) => Some(k + 1)
  }

  /** `tasks.find(t => t.id === id)`. */
  function Find(tasks: seq<Task>, id: string): (r: Option<Task>)
    ensures r.Some? <==> exists j :: 0 <= j < |tasks| && tasks[j].id == id
    ensures r.Some? ==> r.value in tasks && r.value.id == id
  {
    match FindIndex(tasks, id)
    case None => None
    case Some(i) => Some(tasks[i])
  }

  function Ids(tasks: seq<Task>): (r: set<string>)
    ensures forall id :: id in r <==> exists j :: 0 <= j < |tasks| && tasks[j].id == id
  {
    set t | t in tasks :: t.id
  }

  /** Tasks without the given id, in order (`tasks.filter(t => t.id !== id)`). */
  function RemoveId(tasks: seq<Task>, id: string): seq<Task>
  {
    Filter(tasks, LacksId(id))
  }

  /** Deleting exactly keeps the tasks with other ids; an absent id changes nothing. */
  lemma RemoveIdSpec(tasks: seq<Task>, id: string)
    ensures forall t :: t in RemoveId(tasks, id) <==> t in tasks && t.id != id
    ensures id !in Ids(RemoveId(tasks, id))
    ensures id !in Ids(tasks) ==> RemoveId(tasks, id) == tasks
  {
    forall t ensures t in RemoveId(tasks, id) <==> t in tasks && t.id != id {
      FilterMembers(tasks, LacksId(id), t);
    }
    if id !in Ids(tasks) {
      FilterAll(tasks, LacksId(id));
    }
  }

  /** A snoozed task whose wake-up time has passed. */
  function IsDue(now: int): Task -> bool
  {
    (t: Task) => t.status == Snoozed && t.snoozedUntil.Some? && t.snoozedUntil.value <= now
  }

  function DueSnoozed(tasks: seq<Task>, now: int): seq<Task>
  {
    Filter(tasks, IsDue(now))
  }

  // ---------------------------------------------------------------------
  // Updates

  /**
   * The storage service's update: fields named by the update win, and a
   * given `data` is merged key by key into the old payload.
   */
  function MergeUpdate(t: Task, u: TaskUpdate): (r: Task)
    ensures r.id == t.id && r.kind == t.kind && r.createdAt == t.createdAt
    ensures u.data.None? ==> r.data == t.data
    ensures u.data.Some? ==> r.data.Keys == t.data.Keys + u.data.value.Keys
    ensures u.data.Some? ==> forall k :: k in u.data.value ==> r.data[k] == u.data.value[k]
    ensures forall k :: k in t.data && (u.data.None? || k !in u.data.value) ==> r.data[k] == t.data[k]
  {
    t.(status := if u.status.Some? then u.status.value else t.status,
       snoozedUntil := if u.snoozedUntil.Some? then u.snoozedUntil.value else t.snoozedUntil,
       data := if u.data.Some? then t.data + u.data.value else t.data)
  }

  /**
   * The background worker's update `{...task, ...updates}`: a given `data`
   * replaces the old payload instead of being merged into it.
   */
  function SpreadUpdate(t: Task, u: TaskUpdate): (r: Task)
    ensures r.id == t.id && r.kind == t.kind && r.createdAt == t.createdAt
    ensures r.data == if u.data.Some? then u.data.value else t.data
  {
    t.(status := if u.status.Some? then u.status.value else t.status,
       snoozedUntil := if u.snoozedUntil.Some? then u.snoozedUntil.value else t.snoozedUntil,
       data := if u.data.Some? then u.data.value else t.data)
  }

  /** The status an update leaves: the update's when it names one. */
  lemma UpdateStatus(t: Task, u: TaskUpdate)
    ensures MergeUpdate(t, u).status == SpreadUpdate(t, u).status
    ensures u.status.Some? ==> MergeUpdate(t, u).status == u.status.value
    ensures u.status.None? ==> MergeUpdate(t, u).status == t.status
  {
  }

  /** Applying the same update twice is the same as applying it once. */
  lemma UpdatesIdempotent(t: Task, u: TaskUpdate)
    ensures MergeUpdate(MergeUpdate(t, u), u) == MergeUpdate(t, u)
    ensures SpreadUpdate(SpreadUpdate(t, u), u) == SpreadUpdate(t, u)
  {
    if u.data.Some? {
      var m := t.data + u.data.value;
      assert m + u.data.value == m;
    }
  }

  /** The two merges differ only when the update carries a payload. */
  lemma MergeAgreesWithoutData(t: Task, u: TaskUpdate)
    requires u.data.None?
    ensures MergeUpdate(t, u) == SpreadUpdate(t, u)
  {
  }

  /** An update that names nothing leaves the task as it was. */
  lemma EmptyUpdateIdentity(t: Task)
    ensures MergeUpdate(t, TaskUpdate(None, None, None)) == t
    ensures SpreadUpdate(t, TaskUpdate(None, None, None)) == t
  {
  }

  // ---------------------------------------------------------------------
  // Snooze alarms

  const SnoozePrefix := "snooze_"

  /** The alarm the background worker creates for a snoozed task. */
  function AlarmName(taskId: string): (r: string)
    ensures StartsWith(r, SnoozePrefix)
  {
    SnoozePrefix + taskId
  }

  /** The task id the alarm handler reads back from an alarm name. */
  function AlarmTaskId(name: string): string
  {
    ReplaceFirst(name, SnoozePrefix, "")
  }

  /** Every snooze alarm leads back to the task it was created for. */
  lemma AlarmNameRoundTrip(taskId: string)
    ensures AlarmTaskId(AlarmName(taskId)) == taskId
  {
    var n := AlarmName(taskId);
    ReplaceFirstOfPrefix(n, SnoozePrefix, "");
    assert n[|SnoozePrefix|..] == taskId;
  }

  /** Any name the handler accepts is the alarm name of the id it recovers. */
  lemma AlarmTaskIdInverse(name: string)
    requires StartsWith(name, SnoozePrefix)
    ensures AlarmName(AlarmTaskId(name)) == name
  {
    ReplaceFirstOfPrefix(name, SnoozePrefix, "");
    assert name == name[..|SnoozePrefix|] + name[|SnoozePrefix|..];
  }

  // ---------------------------------------------------------------------
  // Relative age, as the popup and the content script show it

  const MinuteMs := 60000
  const HourMs := 3600000
  const DayMs := 86400000

  /** A task's age: "just now", or a whole number of minutes, hours or days. */
  datatype Age = JustNow | Minutes(m: int) | Hours(h: int) | Days(d: int)

  /** `getTimeAgo`'s thresholds on the floored minutes, hours and days. */
  function AgeOf(diffMs: int): Age
  {
    var mins, hours, days := diffMs / MinuteMs, diffMs / HourMs, diffMs / DayMs;
    if mins < 1 then JustNow
    else if mins < 60 then Minutes(mins)
    else if hours < 24 then Hours(hours)
    else Days(days)
  }

  function AgeLabel(a: Age): string
  {
    match a
    case JustNow => "Just now"
    case Minutes(m) => IntToString(m) + "m ago"
    case Hours(h) => IntToString(h) + "h ago"
    case Days(d) => IntToString(d) + "d ago"
  }

  /** `getTimeAgo(date)` with `diffMs = now - date`. */
  function TimeAgo(diffMs: int): (r: string)
    ensures r == "Just now" <==> diffMs < MinuteMs
  {
    var a := AgeOf(diffMs);
    assert AgeLabel(a) == "Just now" ==> a.JustNow? by {
      if !a.JustNow? {
        AgeLabelParts(a);
        assert AgeLabel(a)[|AgeLabel(a)| - 1] == 'o';
      }
    }
    AgeLabel(a)
  }

  /**
   * The shown figure is the elapsed time floored to the largest unit that
   * gives at least 1, minutes below an hour and hours below a day.
   */
  lemma AgeOfBounds(diffMs: int)
    ensures match AgeOf(diffMs)
            case JustNow => diffMs < MinuteMs
            case Minutes(m) => 1 <= m < 60 && m * MinuteMs <= diffMs < (m + 1) * MinuteMs
            case Hours(h) => 1 <= h < 24 && h * HourMs <= diffMs < (h + 1) * HourMs
            case Days(d) => 1 <= d && d * DayMs <= diffMs < (d + 1) * DayMs
  {
    var mins, hours := diffMs / MinuteMs, diffMs / HourMs;
    if 60 <= mins {
      assert diffMs >= HourMs;
      assert 1 <= hours;
    }
    if 60 <= mins && 24 <= hours {
      assert diffMs >= DayMs;
    }
  }

  function Count(a: Age): int
  {
    match a
    case JustNow => 0
    case Minutes(m) => m
    case Hours(h) => h
    case Days(d) => d
  }

  function Unit(a: Age): char
  {
    match a
    case JustNow => ' '
    case Minutes(_) => 'm'
    case Hours(_) => 'h'
    case Days(_) => 'd'
  }

  lemma AgeLabelParts(a: Age)
    requires !a.JustNow?
    ensures AgeLabel(a) == IntToString(Count(a)) + [Unit(a)] + " ago"
  {
  }

  /** Different ages are shown differently, so the label determines the age. */
  lemma AgeLabelInjective(a: Age, b: Age)
    requires AgeLabel(a) == AgeLabel(b)
    ensures a == b
  {
    var la := AgeLabel(a);
    if !a.JustNow? {
      AgeLabelParts(a);
      assert la[|la| - 1] == 'o';
    }
    if !b.JustNow? {
      AgeLabelParts(b);
      assert la[|la| - 1] == 'o';
    }
    if !a.JustNow? && !b.JustNow? {
      var k := |la| - 5;
      assert la[k] == Unit(a) && la[k] == Unit(b);
      assert IntToString(Count(a)) == la[..k] == IntToString(Count(b));
      IntToStringInjective(Count(a), Count(b));
    }
  }
}
