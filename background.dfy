// The extension's background worker: it owns the stored task queue, keeps the
// toolbar badge in step with the number of pending tasks, answers approve and
// reject requests, wakes snoozed tasks from their alarms and polls the server
// for new tasks.
module Background {
  import opened Common
  import opened TaskModel

  /** The id and creation time `generateTaskId()` and `new Date()` give an admitted task. */
  datatype Stamp = Stamp(id: string, createdAt: int)

  /** The result of `fetch(.../tasks)`: not ok, or the parsed `{ tasks }` body. */
  datatype PollResponse = NotOk | Received(tasks: Option<seq<Task>>)

  /** The `{ success, error }` answer sent back to the message's sender. */
  datatype Response = Response(success: bool, error: Option<string>)

  /** The window `executeTaskAction` opens for a task. */
  datatype TaskAction = OpenGmail | OpenCalendar | NoAction

  /** The toolbar badge for a pending count: the number, or nothing at zero. */
  function BadgeText(pendingCount: nat): (text: string)
    ensures text == "" <==> pendingCount == 0
  {
    if pendingCount > 0 then NatToString(pendingCount) else ""
  }

  /** A non-empty badge reads back as the pending count. */
  lemma BadgeTextReadsBack(pendingCount: nat)
    requires pendingCount > 0
    ensures ParseInt(BadgeText(pendingCount)) == Some(pendingCount)
  {
    ParseIntOfIntToString(pendingCount);
  }

  /** Email tasks open Gmail, calendar and reminder tasks open Calendar, others open nothing. */
  function ActionFor(kind: TaskType): (a: TaskAction)
    ensures a == OpenGmail <==> kind == Email
    ensures a == OpenCalendar <==> kind == Calendar || kind == Reminder
  {
    match kind
    case Email => OpenGmail
    case Calendar => OpenCalendar
    case Reminder => OpenCalendar
    case OtherType(_) => NoAction
  }

  /** `'task_' + Date.now() + '_' + <random base-36 digits>`. */
  function GenerateTaskId(now: nat, random: string): (id: string)
    ensures StartsWith(id, "task_")
  {
    "task_" + NatToString(now) + "_" + random
  }

  /** A generated id is the three `_`-separated parts: `task`, the clock reading, the random digits. */
  lemma GeneratedIdParts(now: nat, random: string)
    ensures GenerateTaskId(now, random) == Join(["task", NatToString(now), random], "_")
  {
    var parts := ["task", NatToString(now), random];
    assert parts[1..][1..] == [random];
    assert Join(parts[1..], "_") == NatToString(now) + "_" + random;
  }

  /**
   * Ids generated at different clock readings differ: the random part is
   * base-36 digits, so it holds no `_` and the reading is recovered from
   * the id.
   */
  lemma GeneratedIdsDistinct(now1: nat, random1: string, now2: nat, random2: string)
    requires now1 != now2
    requires Lacks(random1, '_') && Lacks(random2, '_')
    ensures GenerateTaskId(now1, random1) != GenerateTaskId(now2, random2)
  {
    var p1 := ["task", NatToString(now1), random1];
    var p2 := ["task", NatToString(now2), random2];
    IntToStringLacks(now1, '_');
    IntToStringLacks(now2, '_');
    assert Lacks("task", '_');
    GeneratedIdParts(now1, random1);
    GeneratedIdParts(now2, random2);
    if GenerateTaskId(now1, random1) == GenerateTaskId(now2, random2) {
      SplitOnJoin(p1, "_");
      SplitOnJoin(p2, "_");
      assert p1[1] == p2[1];
      NatToStringInjective(now1, now2);
    }
  }

  /** The task `handleAddTask` stores: a new id and creation time, status pending. */
  function Admit(task: Task, stamp: Stamp): (t: Task)
    ensures t.id == stamp.id && t.createdAt == stamp.createdAt && t.status == Pending
    ensures t.kind == task.kind && t.data == task.data && t.snoozedUntil == task.snoozedUntil
  {
    task.(id := stamp.id, createdAt := stamp.createdAt, status := Pending)
  }

  function NotIn(ids: set<string>): Task -> bool
  {
    (t: Task) => t.id !in ids
  }

  /** The server tasks a poll admits: those whose id is not a stored id. */
  function NewFromServer(batch: seq<Task>, existing: set<string>): seq<Task>
  {
    Filter(batch, NotIn(existing))
  }

  /** The k-th admitted task of a poll carries the k-th stamp. */
  function Admitted(incoming: seq<Task>, stamps: nat -> Stamp): (r: seq<Task>)
    ensures |r| == |incoming|
    ensures forall k :: 0 <= k < |incoming| ==> r[k] == Admit(incoming[k], stamps(k))
  {
    seq(|incoming|, k requires 0 <= k < |incoming| => Admit(incoming[k], stamps(k)))
  }

  function ServerIds(ts: seq<Task>): (r: seq<string>)
    ensures |r| == |ts| && forall k :: 0 <= k < |ts| ==> r[k] == ts[k].id
  {
    seq(|ts|, k requires 0 <= k < |ts| => ts[k].id)
  }

  lemma PollStep(batch: seq<Task>, i: nat, existing: set<string>)
    requires i < |batch|
    ensures NewFromServer(batch[..i + 1], existing)
            == NewFromServer(batch[..i], existing) + (if batch[i].id in existing then [] else [batch[i]])
  {
    assert batch[..i + 1] == batch[..i] + [batch[i]];
    FilterConcat(batch[..i], [batch[i]], NotIn(existing));
  }

  /**
   * How many of a poll's `count` handled posts go through before the first
   * one that rejects: all of them when none rejects.
   */
  function PostsBeforeRejection(count: nat, rejects: nat -> bool): (n: nat)
    ensures n <= count
    ensures forall k :: 0 <= k < n ==> !rejects(k)
    ensures n < count ==> rejects(n)
  {
    FirstRejectedFrom(0, count, rejects)
  }

  function FirstRejectedFrom(from: nat, count: nat, rejects: nat -> bool): (n: nat)
    requires from <= count
    ensures from <= n <= count
    ensures forall k :: from <= k < n ==> !rejects(k)
    ensures n < count ==> rejects(n)
    decreases count - from
  {
    if from == count then count else if rejects(from) then from else FirstRejectedFrom(from + 1, count, rejects)
  }

  /** The number of posts before the first rejection is the only one with its two properties. */
  lemma PostsBeforeRejectionUnique(count: nat, rejects: nat -> bool, m: nat)
    requires m <= count && (forall k :: 0 <= k < m ==> !rejects(k)) && (m < count ==> rejects(m))
    ensures PostsBeforeRejection(count, rejects) == m
  {
  }

  lemma ServerIdsSnoc(ts: seq<Task>, t: Task)
    ensures ServerIds(ts + [t]) == ServerIds(ts) + [t.id]
  {
  }

  lemma AdmittedSnoc(incoming: seq<Task>, t: Task, stamps: nat -> Stamp)
    ensures Admitted(incoming + [t], stamps) == Admitted(incoming, stamps) + [Admit(t, stamps(|incoming|))]
  {
    assert (incoming + [t])[|incoming|] == t;
  }

  class BackgroundWorker {
    /** `chrome.storage.local[STORAGE_KEY]`; `None` when the key is absent. */
    var stored: Option<seq<Task>>
    /** The toolbar badge text. */
    var badgeText: string
    /**
     * Scheduled alarms that have not fired yet, by name, with their firing
     * instant; a one-shot alarm is gone once it fires.
     */
    var alarms: map<string, int>
    /** Whether a polling interval has been set up. */
    var polling: bool
    /**
     * The server tasks for which a toast was sent towards the active tab, in
     * order; whether a tab was there to show it is not tracked.
     */
    var toasts: seq<Task>
    /** Server task ids reported back as handled, in order. */
    var handledPosts: seq<string>
    /** Pending counts broadcast to every tab's sticky button, in order. */
    var buttonBroadcasts: seq<nat>

    constructor ()
      ensures stored.None? && badgeText == "" && alarms == map[] && !polling
      ensures toasts == [] && handledPosts == [] && buttonBroadcasts == []
    {
      stored := None;
      badgeText := "";
      alarms := map[];
      polling := false;
      toasts := [];
      handledPosts := [];
      buttonBroadcasts := [];
    }

    function Tasks(): seq<Task>
      reads this
    {
      if stored.Some? then stored.value else []
    }

    method GetTasks() returns (tasks: seq<Task>)
      ensures stored.None? ==> tasks == []
      ensures stored.Some? ==> tasks == stored.value
    {
      tasks := if stored.Some? then stored.value else [];
    }

    method UpdateBadgeCount()
      modifies this`badgeText
      ensures badgeText == BadgeText(PendingCount(Tasks()))
    {
      var tasks := GetTasks();
      badgeText := BadgeText(|Filter(tasks, HasStatus(Pending))|);
    }

    method BroadcastButtonStateUpdate()
      modifies this`buttonBroadcasts
      ensures buttonBroadcasts == old(buttonBroadcasts) + [PendingCount(Tasks())]
    {
      var tasks := GetTasks();
      buttonBroadcasts := buttonBroadcasts + [|Filter(tasks, HasStatus(Pending))|];
    }

    method HandleAddTask(task: Task, stamp: Stamp)
      modifies this`stored, this`badgeText
      ensures stored == Some(old(Tasks()) + [Admit(task, stamp)])
      ensures badgeText == BadgeText(PendingCount(Tasks()))
    {
      var tasks := GetTasks();
      tasks := tasks + [Admit(task, stamp)];
      stored := Some(tasks);
      UpdateBadgeCount();
    }

    /** Never throws: an unknown id only leaves a log line. */
    method HandleUpdateTask(taskId: string, updates: TaskUpdate)
      modifies this`stored, this`badgeText, this`alarms, this`buttonBroadcasts
      ensures FindIndex(old(Tasks()), taskId).None? ==>
                stored == old(stored) && badgeText == old(badgeText) && alarms == old(alarms)
                && buttonBroadcasts == old(buttonBroadcasts)
      ensures FindIndex(old(Tasks()), taskId).Some? ==>
                var i := FindIndex(old(Tasks()), taskId).value;
                stored == Some(old(Tasks())[i := SpreadUpdate(old(Tasks())[i], updates)])
                && badgeText == BadgeText(PendingCount(Tasks()))
                && buttonBroadcasts == old(buttonBroadcasts) + [PendingCount(Tasks())]
                && alarms == (if updates.status == Some(Snoozed) && updates.snoozedUntil.Some?
                                 && updates.snoozedUntil.value.Some?
                              then old(alarms)[AlarmName(taskId) := updates.snoozedUntil.value.value]
                              else old(alarms))
    {
      var tasks := GetTasks();
      var taskIndex := FindIndex(tasks, taskId);
      if taskIndex.Some? {
        var i := taskIndex.value;
        tasks := tasks[i := SpreadUpdate(tasks[i], updates)];
        stored := Some(tasks);
        UpdateBadgeCount();
        if updates.status == Some(Snoozed) && updates.snoozedUntil.Some? && updates.snoozedUntil.value.Some? {
          alarms := alarms[AlarmName(taskId) := updates.snoozedUntil.value.value];
        }
        BroadcastButtonStateUpdate();
      }
    }

    /**
     * APPROVE_TASK. `actionError` is the error opening the Gmail or Calendar
     * tab raises, if it raises one.
     */
    method ApproveTask(taskId: string, actionError: Option<string>) returns (response: Response, action: TaskAction)
      modifies this`stored, this`badgeText, this`alarms, this`buttonBroadcasts
      ensures Find(old(Tasks()), taskId).None? ==>
                response == Response(false, Some("Task not found")) && action == NoAction
                && stored == old(stored) && badgeText == old(badgeText)
      ensures Find(old(Tasks()), taskId).Some? ==> action == ActionFor(Find(old(Tasks()), taskId).value.kind)
      ensures Find(old(Tasks()), taskId).Some? && action != NoAction && actionError.Some? ==>
                response == Response(false, actionError) && stored == old(stored) && badgeText == old(badgeText)
      ensures Find(old(Tasks()), taskId).Some? && (action == NoAction || actionError.None?) ==>
                var i := FindIndex(old(Tasks()), taskId).value;
                response == Response(true, None)
                && stored == Some(old(Tasks())[i := old(Tasks())[i].(status := Approved)])
    {
      var tasks := GetTasks();
      var task := Find(tasks, taskId);
      if task.None? {
        return Response(false, Some("Task not found")), NoAction;
      }
      action := ActionFor(task.value.kind);
      if action != NoAction && actionError.Some? {
        return Response(false, actionError), action;
      }
      HandleUpdateTask(taskId, TaskUpdate(Some(Approved), None, None));
      response := Response(true, None);
    }

    /** REJECT_TASK answers success even for an unknown id, since the update never throws. */
    method RejectTask(taskId: string) returns (response: Response)
      modifies this`stored, this`badgeText, this`alarms, this`buttonBroadcasts
      ensures response == Response(true, None)
      ensures FindIndex(old(Tasks()), taskId).None? ==> stored == old(stored)
      ensures FindIndex(old(Tasks()), taskId).Some? ==>
                var i := FindIndex(old(Tasks()), taskId).value;
                stored == Some(old(Tasks())[i := old(Tasks())[i].(status := Rejected)])
    {
      HandleUpdateTask(taskId, TaskUpdate(Some(Rejected), None, None));
      response := Response(true, None);
    }

    /** The alarm listener: a snooze alarm puts its task back to pending. */
    method OnAlarm(name: string)
      modifies this`stored, this`badgeText, this`alarms, this`buttonBroadcasts
      ensures alarms == old(alarms) - {name}
      ensures !StartsWith(name, SnoozePrefix) ==>
                stored == old(stored) && badgeText == old(badgeText) && buttonBroadcasts == old(buttonBroadcasts)
      ensures StartsWith(name, SnoozePrefix) ==>
                var id := AlarmTaskId(name);
                (FindIndex(old(Tasks()), id).None? ==> stored == old(stored))
                && (FindIndex(old(Tasks()), id).Some? ==>
                      var i := FindIndex(old(Tasks()), id).value;
                      stored == Some(old(Tasks())[i := old(Tasks())[i].(status := Pending, snoozedUntil := None)]))
                && |buttonBroadcasts| > |old(buttonBroadcasts)|
                && buttonBroadcasts[|buttonBroadcasts| - 1] == PendingCount(Tasks())
    {
      alarms := alarms - {name};
      if StartsWith(name, SnoozePrefix) {
        var taskId := ReplaceFirst(name, SnoozePrefix, "");
        HandleUpdateTask(taskId, TaskUpdate(Some(Pending), Some(None), None));
        BroadcastButtonStateUpdate();
      }
    }

    method GetPendingTaskCount() returns (count: nat)
      ensures count == PendingCount(Tasks())
    {
      var tasks := GetTasks();
      count := |Filter(tasks, HasStatus(Pending))|;
    }

    method GetPendingTasks() returns (pending: seq<Task>)
      ensures pending == WithStatus(Tasks(), Pending)
      ensures forall t :: t in pending <==> t in Tasks() && t.status == Pending
    {
      var tasks := GetTasks();
      pending := Filter(tasks, HasStatus(Pending));
      forall t ensures t in pending <==> t in Tasks() && t.status == Pending {
        FilterMembers(tasks, HasStatus(Pending), t);
      }
    }

    /**
     * One poll. `stamps(k)` is the id and time given to the k-th task this
     * poll admits, and `postRejects(k)` whether the k-th handled post
     * rejects. A rejected post ends the poll in its `catch`: the task just
     * stored stays, unposted and unannounced, the rest of the batch is not
     * looked at and nothing is broadcast.
     */
    method PollForTasks(response: PollResponse, stamps: nat -> Stamp, postRejects: nat -> bool) returns (added: nat)
      modifies this`stored, this`badgeText, this`toasts, this`handledPosts, this`buttonBroadcasts
      ensures (response.NotOk? || response.tasks.None? || response.tasks.value == []) ==>
                added == 0 && stored == old(stored) && badgeText == old(badgeText) && toasts == old(toasts)
                && handledPosts == old(handledPosts) && buttonBroadcasts == old(buttonBroadcasts)
      ensures response.Received? && response.tasks.Some? ==>
                var incoming := NewFromServer(response.tasks.value, Ids(old(Tasks())));
                var n := PostsBeforeRejection(|incoming|, postRejects);
                var storedCount := if n < |incoming| then n + 1 else n;
                added == n
                && Tasks() == old(Tasks()) + Admitted(incoming[..storedCount], stamps)
                && toasts == old(toasts) + incoming[..n]
                && handledPosts == old(handledPosts) + ServerIds(incoming[..n])
                && (storedCount > 0 ==> badgeText == BadgeText(PendingCount(Tasks())))
                && (storedCount == 0 ==> stored == old(stored) && badgeText == old(badgeText))
                && buttonBroadcasts == if n == |incoming| && n > 0 then old(buttonBroadcasts) + [PendingCount(Tasks())]
                                       else old(buttonBroadcasts)
    {
      added := 0;
      if response.NotOk? || response.tasks.None? || response.tasks.value == [] {
        return;
      }
      var existingTasks := GetTasks();
      var rejected;
      added, rejected := AdmitNewTasks(response.tasks.value, Ids(existingTasks), stamps, postRejects);
      if rejected {
        return;
      }
      if added > 0 {
        BroadcastButtonStateUpdate();
      }
    }

    /**
     * The polling loop: admits, in order, each server task whose id is not
     * in `existingIds`, until a handled post rejects (`rejected`).
     */
    method AdmitNewTasks(batch: seq<Task>, existingIds: set<string>, stamps: nat -> Stamp, postRejects: nat -> bool)
        returns (added: nat, rejected: bool)
      modifies this`stored, this`badgeText, this`toasts, this`handledPosts
      ensures var incoming := NewFromServer(batch, existingIds);
              var n := PostsBeforeRejection(|incoming|, postRejects);
              added == n && rejected == (n < |incoming|)
              && PollState(old(Tasks()), old(toasts), old(handledPosts),
                           incoming[..if rejected then n + 1 else n], incoming[..n], stamps)
      ensures added > 0 || rejected ==> badgeText == BadgeText(PendingCount(Tasks()))
      ensures added == 0 && !rejected ==> stored == old(stored) && badgeText == old(badgeText)
    {
      added, rejected := 0, false;
      ghost var incoming: seq<Task> := [];
      var i := 0;
      while i < |batch| && !rejected
        invariant 0 <= i <= |batch|
        invariant PollLoop(batch[..i], existingIds, stamps, postRejects, old(Tasks()), old(toasts), old(handledPosts),
                           old(stored), old(badgeText), added, incoming, rejected)
      {
        added, incoming, rejected := PollOne(batch, i, existingIds, stamps, postRejects, old(Tasks()), old(toasts),
                                             old(handledPosts), old(stored), old(badgeText), added, incoming);
        i := i + 1;
      }
      PollFinished(batch, i, existingIds, stamps, postRejects, old(Tasks()), old(toasts), old(handledPosts),
                   old(stored), old(badgeText), added, incoming, rejected);
    }

    /**
     * The state of the polling loop once the server tasks `seen` have been
     * looked at: `incoming` are the new ones among them, all stored; all
     * but a rejected last one were posted and announced.
     */
    ghost predicate PollLoop(seen: seq<Task>, existingIds: set<string>, stamps: nat -> Stamp, postRejects: nat -> bool,
                             tasks0: seq<Task>, toasts0: seq<Task>, handled0: seq<string>,
                             stored0: Option<seq<Task>>, badge0: string, added: nat, incoming: seq<Task>, rejected: bool)
      reads this
    {
      incoming == NewFromServer(seen, existingIds)
      && (forall k :: 0 <= k < added ==> !postRejects(k))
      && (!rejected ==> PollRunning(tasks0, toasts0, handled0, stored0, badge0, added, incoming, stamps))
      && (rejected ==> PollStopped(tasks0, toasts0, handled0, added, incoming, stamps, postRejects))
    }

    /** No post has rejected yet: every new task so far is stored, posted and announced. */
    ghost predicate PollRunning(tasks0: seq<Task>, toasts0: seq<Task>, handled0: seq<string>,
                                stored0: Option<seq<Task>>, badge0: string, added: nat, incoming: seq<Task>,
                                stamps: nat -> Stamp)
      reads this
    {
      added == |incoming|
      && PollState(tasks0, toasts0, handled0, incoming, incoming, stamps)
      && (added > 0 ==> badgeText == BadgeText(PendingCount(Tasks())))
      && (added == 0 ==> stored == stored0 && badgeText == badge0)
    }

    /** The post of the last new task rejected: it is stored, but neither posted nor announced. */
    ghost predicate PollStopped(tasks0: seq<Task>, toasts0: seq<Task>, handled0: seq<string>, added: nat,
                                incoming: seq<Task>, stamps: nat -> Stamp, postRejects: nat -> bool)
      reads this
    {
      |incoming| == added + 1 && postRejects(added)
      && PollState(tasks0, toasts0, handled0, incoming, incoming[..added], stamps)
      && badgeText == BadgeText(PendingCount(Tasks()))
    }

    /** One iteration of the polling loop: the server task at `i` is admitted when its id is new. */
    method PollOne(batch: seq<Task>, i: nat, existingIds: set<string>, stamps: nat -> Stamp, postRejects: nat -> bool,
                   ghost tasks0: seq<Task>, ghost toasts0: seq<Task>, ghost handled0: seq<string>,
                   ghost stored0: Option<seq<Task>>, ghost badge0: string, added: nat, ghost incoming: seq<Task>)
        returns (added': nat, ghost incoming': seq<Task>, rejected': bool)
      modifies this`stored, this`badgeText, this`toasts, this`handledPosts
      requires i < |batch|
      requires PollLoop(batch[..i], existingIds, stamps, postRejects, tasks0, toasts0, handled0, stored0, badge0,
                        added, incoming, false)
      ensures PollLoop(batch[..i + 1], existingIds, stamps, postRejects, tasks0, toasts0, handled0, stored0, badge0,
                       added', incoming', rejected')
    {
      PollStep(batch, i, existingIds);
      if batch[i].id in existingIds {
        added', incoming', rejected' := added, incoming, false;
        assert incoming' == NewFromServer(batch[..i + 1], existingIds);
      } else {
        added', incoming', rejected' := AdmitNext(batch[i], stamps, postRejects, tasks0, toasts0, handled0,
                                                   stored0, badge0, added, incoming);
      }
    }

    /** The loop meets a task with a new id: it is stored, and posted and announced unless its post rejects. */
    method AdmitNext(task: Task, stamps: nat -> Stamp, postRejects: nat -> bool,
                     ghost tasks0: seq<Task>, ghost toasts0: seq<Task>, ghost handled0: seq<string>,
                     ghost stored0: Option<seq<Task>>, ghost badge0: string, added: nat, ghost incoming: seq<Task>)
        returns (added': nat, ghost incoming': seq<Task>, rejected': bool)
      modifies this`stored, this`badgeText, this`toasts, this`handledPosts
      requires PollRunning(tasks0, toasts0, handled0, stored0, badge0, added, incoming, stamps)
      ensures incoming' == incoming + [task]
      ensures rejected' == postRejects(added) && added' == if rejected' then added else added + 1
      ensures !rejected' ==> PollRunning(tasks0, toasts0, handled0, stored0, badge0, added', incoming', stamps)
      ensures rejected' ==> PollStopped(tasks0, toasts0, handled0, added', incoming', stamps, postRejects)
    {
      var postRejected := postRejects(added);
      AdmitPolled(task, added, stamps, postRejected, tasks0, toasts0, handled0, incoming);
      incoming' := incoming + [task];
      if postRejected {
        added', rejected' := added, true;
        assert incoming'[..added] == incoming;
      } else {
        added', rejected' := added + 1, false;
      }
    }

    /** The state the polling loop leaves once it has stopped, in terms of the whole batch. */
    lemma PollFinished(batch: seq<Task>, i: nat, existingIds: set<string>, stamps: nat -> Stamp, postRejects: nat -> bool,
                       tasks0: seq<Task>, toasts0: seq<Task>, handled0: seq<string>, stored0: Option<seq<Task>>,
                       badge0: string, added: nat, incoming: seq<Task>, rejected: bool)
      requires i <= |batch| && (i == |batch| || rejected)
      requires PollLoop(batch[..i], existingIds, stamps, postRejects, tasks0, toasts0, handled0, stored0, badge0,
                        added, incoming, rejected)
      ensures var all := NewFromServer(batch, existingIds);
              var n := PostsBeforeRejection(|all|, postRejects);
              added == n && rejected == (n < |all|)
              && PollState(tasks0, toasts0, handled0, all[..if rejected then n + 1 else n], all[..n], stamps)
      ensures added > 0 || rejected ==> badgeText == BadgeText(PendingCount(Tasks()))
      ensures added == 0 && !rejected ==> stored == stored0 && badgeText == badge0
    {
      PollEnds(batch, i, existingIds, postRejects, incoming, added, rejected);
    }

    /** When the loop stops, its state is the one the whole batch and the first rejected post determine. */
    lemma PollEnds(batch: seq<Task>, i: nat, existingIds: set<string>, postRejects: nat -> bool,
                   incoming: seq<Task>, added: nat, rejected: bool)
      requires i <= |batch| && (i == |batch| || rejected)
      requires incoming == NewFromServer(batch[..i], existingIds)
      requires forall k :: 0 <= k < added ==> !postRejects(k)
      requires !rejected ==> added == |incoming|
      requires rejected ==> |incoming| == added + 1 && postRejects(added)
      ensures var all := NewFromServer(batch, existingIds);
              added == PostsBeforeRejection(|all|, postRejects) && rejected == (added < |all|)
              && incoming == all[..if rejected then added + 1 else added]
              && incoming[..added] == all[..added]
    {
      var all := NewFromServer(batch, existingIds);
      assert batch == batch[..i] + batch[i..];
      FilterConcat(batch[..i], batch[i..], NotIn(existingIds));
      assert all[..|incoming|] == incoming;
      if !rejected {
        assert batch[..i] == batch;
      }
      PostsBeforeRejectionUnique(|all|, postRejects, added);
    }

    /**
     * After a poll has stored `storedIn` and posted and announced
     * `announced`: the queue, the toasts and the handled ids have each been
     * extended by them, in order.
     */
    ghost predicate PollState(tasks0: seq<Task>, toasts0: seq<Task>, handled0: seq<string>,
                              storedIn: seq<Task>, announced: seq<Task>, stamps: nat -> Stamp)
      reads this
    {
      Tasks() == tasks0 + Admitted(storedIn, stamps)
      && toasts == toasts0 + announced
      && handledPosts == handled0 + ServerIds(announced)
    }

    /** One loop step: the next server task is stored, and posted and announced unless its post rejects. */
    method AdmitPolled(task: Task, index: nat, stamps: nat -> Stamp, postRejected: bool, ghost tasks0: seq<Task>,
                       ghost toasts0: seq<Task>, ghost handled0: seq<string>, ghost incoming: seq<Task>)
      modifies this`stored, this`badgeText, this`toasts, this`handledPosts
      requires index == |incoming|
      requires PollState(tasks0, toasts0, handled0, incoming, incoming, stamps)
      ensures PollState(tasks0, toasts0, handled0, incoming + [task], if postRejected then incoming else incoming + [task], stamps)
      ensures badgeText == BadgeText(PendingCount(Tasks()))
    {
      AdmittedSnoc(incoming, task, stamps);
      ServerIdsSnoc(incoming, task);
      AdmitServerTask(task, stamps(index), postRejected);
    }

    /**
     * One admitted server task: stored, then posted as handled and
     * announced as a toast, unless the post rejects.
     */
    method AdmitServerTask(task: Task, stamp: Stamp, postRejected: bool)
      modifies this`stored, this`badgeText, this`toasts, this`handledPosts
      ensures Tasks() == old(Tasks()) + [Admit(task, stamp)] && stored.Some?
      ensures badgeText == BadgeText(PendingCount(Tasks()))
      ensures postRejected ==> toasts == old(toasts) && handledPosts == old(handledPosts)
      ensures !postRejected ==> toasts == old(toasts) + [task] && handledPosts == old(handledPosts) + [task.id]
    {
      HandleAddTask(task, stamp);
      if postRejected {
        return;
      }
      handledPosts := handledPosts + [task.id];
      toasts := toasts + [task];
    }

    /** The debugging `clearAllTasks`: stores an empty queue. */
    method ClearAllTasks()
      modifies this`stored, this`badgeText
      ensures stored == Some([]) && badgeText == ""
    {
      stored := Some([]);
      UpdateBadgeCount();
    }

    /** Returns whether a first poll is triggered: only when no interval existed. */
    method StartPolling() returns (initialPoll: bool)
      modifies this`polling
      ensures polling
      ensures initialPoll == !old(polling)
    {
      if polling {
        return false;
      }
      polling := true;
      initialPoll := true;
    }

    /** Startup: keep only the pending tasks, refresh the badge, start polling. */
    method Initialize() returns (initialPoll: bool)
      modifies this`stored, this`badgeText, this`polling
      ensures Tasks() == WithStatus(old(Tasks()), Pending)
      ensures (forall j :: 0 <= j < |old(Tasks())| ==> old(Tasks())[j].status == Pending) ==> stored == old(stored)
      ensures badgeText == BadgeText(|Tasks()|)
      ensures polling && initialPoll == !old(polling)
    {
      var allTasks := GetTasks();
      var pendingTasks := Filter(allTasks, HasStatus(Pending));
      FilterShorter(allTasks, HasStatus(Pending));
      if |allTasks| != |pendingTasks| {
        stored := Some(pendingTasks);
      } else {
        FilterAll(allTasks, HasStatus(Pending));
      }
      PrunedAllPending(allTasks);
      UpdateBadgeCount();
      initialPoll := StartPolling();
    }
  }

  /** After pruning every task is pending, so the pending count is the queue length. */
  lemma PrunedAllPending(s: seq<Task>)
    ensures PendingCount(WithStatus(s, Pending)) == |WithStatus(s, Pending)|
    ensures WithStatus(WithStatus(s, Pending), Pending) == WithStatus(s, Pending)
  {
    var p := WithStatus(s, Pending);
    forall i | 0 <= i < |p| ensures p[i].status == Pending {
      assert p[i] in p;
      FilterMembers(s, HasStatus(Pending), p[i]);
    }
    FilterAll(p, HasStatus(Pending));
  }

  /** Every task a poll admits is pending, carries its stamp, and came from an unknown server id. */
  lemma {:induction false} AdmittedFromUnknownIds(batch: seq<Task>, existing: set<string>, stamps: nat -> Stamp, k: nat)
    requires k < |NewFromServer(batch, existing)|
    ensures var incoming := NewFromServer(batch, existing);
            var t := Admitted(incoming, stamps)[k];
            t.status == Pending && t.id == stamps(k).id
            && incoming[k] in batch && incoming[k].id !in existing
            && t.kind == incoming[k].kind && t.data == incoming[k].data
  {
    var incoming := NewFromServer(batch, existing);
    assert incoming[k] in incoming;
    FilterMembers(batch, NotIn(existing), incoming[k]);
  }

  /**
   * The poll compares server ids with stored ids, but admitted tasks are
   * stored under incoming ids. When the incoming ids are not server ids, a second
   * poll of the same batch admits the same tasks again.
   */
  lemma {:induction false} RepollAdmitsAgain(stored: seq<Task>, batch: seq<Task>, stamps: nat -> Stamp)
    requires forall k: nat, j :: 0 <= j < |batch| ==> stamps(k).id != batch[j].id
    ensures var incoming := NewFromServer(batch, Ids(stored));
            NewFromServer(batch, Ids(stored + Admitted(incoming, stamps))) == incoming
  {
    var incoming := NewFromServer(batch, Ids(stored));
    var after := stored + Admitted(incoming, stamps);
    forall j | 0 <= j < |batch|
      ensures (batch[j].id in Ids(after)) == (batch[j].id in Ids(stored))
    {
      if batch[j].id in Ids(after) {
        var m :| 0 <= m < |after| && after[m].id == batch[j].id;
        if m >= |stored| {
          assert false;
        }
        assert after[m] == stored[m];
      }
      if batch[j].id in Ids(stored) {
        var m :| 0 <= m < |stored| && stored[m].id == batch[j].id;
        assert after[m] == stored[m];
      }
    }
    SameFilter(batch, Ids(after), Ids(stored));
  }

  lemma {:induction false} SameFilter(batch: seq<Task>, a: set<string>, b: set<string>)
    requires forall j :: 0 <= j < |batch| ==> (batch[j].id in a) == (batch[j].id in b)
    ensures NewFromServer(batch, a) == NewFromServer(batch, b)
  {
    if batch != [] {
      SameFilter(batch[1..], a, b);
    }
  }
}
