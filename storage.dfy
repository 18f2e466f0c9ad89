// The extension's task storage service: every operation reads the task array
// stored under one key of the browser's local storage, changes it and writes
// it back.
module TaskStorage {
  import opened Common
  import opened TaskModel

  const StorageKey := "tedai_task_queue"

  datatype Outcome = Done | Failed(message: string)

  /** The message `updateTask` throws for an unknown id. */
  function NotFoundMessage(taskId: string): (m: string)
    ensures StartsWith(m, "Task with ID ")
  {
    "Task with ID " + taskId + " not found"
  }

  class TaskStorageService {
    /** The value stored under `StorageKey`; `None` when the key is absent. */
    var stored: Option<seq<Task>>

    constructor ()
      ensures stored.None?
    {
      stored := None;
    }

    /** The queue as `getTasks` reads it: the stored array, or `[]` when absent. */
    function Tasks(): seq<Task>
      reads this
    {
      if stored.Some? then stored.value else []
    }

    method GetTasks() returns (tasks: seq<Task>)
      ensures stored.None? ==> tasks == []
      ensures stored.Some? ==> tasks == stored.value
    {
      tasks := if stored.Some? then stored.value else [];
    }

    method AddTask(task: Task)
      modifies this
      ensures stored == Some(old(Tasks()) + [task])
    {
      var tasks := GetTasks();
      tasks := tasks + [task];
      stored := Some(tasks);
    }

    method GetTasksByStatus(status: TaskStatus) returns (r: seq<Task>)
      ensures r == WithStatus(Tasks(), status)
      ensures forall t :: t in r <==> t in Tasks() && t.status == status
    {
      var tasks := GetTasks();
      r := Filter(tasks, HasStatus(status));
      forall t ensures t in r <==> t in Tasks() && t.status == status {
        FilterMembers(tasks, HasStatus(status), t);
      }
    }

    method GetPendingTasksCount() returns (n: nat)
      ensures n == PendingCount(Tasks())
      ensures n <= |Tasks()|
    {
      var pending := GetTasksByStatus(Pending);
      n := |pending|;
    }

    /** Throws (here: `Failed`) without writing when no task has the id. */
    method UpdateTask(taskId: string, updates: TaskUpdate) returns (outcome: Outcome)
      modifies this
      ensures FindIndex(old(Tasks()), taskId).None? ==>
                outcome == Failed(NotFoundMessage(taskId)) && stored == old(stored)
      ensures FindIndex(old(Tasks()), taskId).Some? ==>
                var i := FindIndex(old(Tasks()), taskId).value;
                outcome == Done && stored == Some(old(Tasks())[i := MergeUpdate(old(Tasks())[i], updates)])
    {
      var tasks := GetTasks();
      var taskIndex := FindIndex(tasks, taskId);
      if taskIndex.None? {
        return Failed(NotFoundMessage(taskId));
      }
      var i := taskIndex.value;
      tasks := tasks[i := MergeUpdate(tasks[i], updates)];
      stored := Some(tasks);
      outcome := Done;
    }

    method DeleteTask(taskId: string)
      modifies this
      ensures stored == Some(RemoveId(old(Tasks()), taskId))
    {
      var tasks := GetTasks();
      stored := Some(Filter(tasks, LacksId(taskId)));
    }

    method ClearAllTasks()
      modifies this
      ensures stored.None? && Tasks() == []
    {
      stored := None;
    }

    method GetDueSnoozedTasks(now: int) returns (r: seq<Task>)
      ensures r == DueSnoozed(Tasks(), now)
      ensures forall t :: t in r <==>
                t in Tasks() && t.status == Snoozed && t.snoozedUntil.Some? && t.snoozedUntil.value <= now
    {
      var tasks := GetTasks();
      r := Filter(tasks, IsDue(now));
      forall t ensures t in r <==> t in Tasks() && IsDue(now)(t) {
        FilterMembers(tasks, IsDue(now), t);
      }
    }
  }

  /** An updated queue keeps its length and every task other than the first match. */
  lemma UpdateTouchesOnlyFirstMatch(tasks: seq<Task>, taskId: string, updates: TaskUpdate)
    requires FindIndex(tasks, taskId).Some?
    ensures var i := FindIndex(tasks, taskId).value;
            var r := tasks[i := MergeUpdate(tasks[i], updates)];
            |r| == |tasks| && r[i].id == taskId
            && (forall j :: 0 <= j < |tasks| && j != i ==> r[j] == tasks[j])
            && (forall j :: 0 <= j < i ==> r[j].id != taskId)
  {
  }

  /** Adding a task raises the pending count exactly when the new task is pending. */
  lemma AddTaskPendingCount(s: seq<Task>, task: Task)
    ensures PendingCount(s + [task]) == PendingCount(s) + (if task.status == Pending then 1 else 0)
    ensures WithStatus(s + [task], task.status) == WithStatus(s, task.status) + [task]
  {
    PendingCountAppend(s, task);
    FilterConcat(s, [task], HasStatus(task.status));
  }
}
