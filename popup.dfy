// The extension popup's task queue manager: it keeps the pending tasks it
// last loaded from the background worker, renders them, and turns the
// approve and reject buttons into status updates sent back to the worker.
module Popup {
  import opened Common
  import opened TaskModel
  import Gmail

  /** What the popup asks of the browser and the background worker, in order. */
  datatype Effect =
    | OpenedTab(url: Url)
    | SentUpdate(taskId: string, updates: TaskUpdate)

  /** One rendered task card. */
  datatype Card = Card(id: string, kind: TaskType, timeAgo: string, summary: string)

  /** What the popup shows: the loading indicator, the empty state, or the task list. */
  datatype View = Loading | EmptyState | TaskList(cards: seq<Card>)

  /** The email a task payload describes, as `openGmailCompose` reads it. */
  function EmailOf(data: TaskData): Gmail.EmailTask
  {
    Gmail.EmailTask(Field(data, "to"), Field(data, "subject"), Field(data, "body"),
                    OptionalField(data, "cc"), OptionalField(data, "bcc"))
  }

  /** `getTaskSummary`: one line per task type, with a fallback for other types. */
  function TaskSummary(t: Task): (r: string)
    ensures t.kind.OtherType? ==> r == "Unknown task type"
    ensures t.kind == Email ==> StartsWith(r, "To: " + Field(t.data, "to") + " - ")
    ensures t.kind == Calendar ==> StartsWith(r, "Event: ")
    ensures t.kind == Reminder ==> StartsWith(r, "Reminder: ")
  {
    match t.kind
    case Email => "To: " + Field(t.data, "to") + " - " + Field(t.data, "subject")
    case Calendar => "Event: " + Field(t.data, "title")
    case Reminder => "Reminder: " + Field(t.data, "title")
    case OtherType(_) => "Unknown task type"
  }

  /** Only a task of another type gets the fallback text. */
  lemma TaskSummaryFallback(t: Task)
    ensures TaskSummary(t) == "Unknown task type" <==> t.kind.OtherType?
  {
    var r := TaskSummary(t);
    if !t.kind.OtherType? {
      assert r[0] != 'U';
    }
  }

  /** `{status, ...additionalUpdates}`: a status inside the extra updates overrides the argument. */
  function StatusUpdate(status: TaskStatus, additional: TaskUpdate): (u: TaskUpdate)
    ensures u.status.Some?
    ensures u.snoozedUntil == additional.snoozedUntil && u.data == additional.data
  {
    additional.(status := if additional.status.Some? then additional.status else Some(status))
  }

  /** The default `additionalUpdates = {}`. */
  const NoUpdates := TaskUpdate(None, None, None)

  /** Without extra updates only the status is sent; a status among them wins over the argument. */
  lemma StatusUpdateOverrides(status: TaskStatus, additional: TaskUpdate)
    ensures StatusUpdate(status, NoUpdates) == TaskUpdate(Some(status), None, None)
    ensures StatusUpdate(status, additional).status.value
            == if additional.status.Some? then additional.status.value else status
  {
  }

  /** One card: the task's id and type, its age label at `now`, and its summary line. */
  function RenderCard(t: Task, now: int): (c: Card)
    ensures c.id == t.id && c.kind == t.kind
    ensures c.timeAgo == TimeAgo(now - t.createdAt) && c.summary == TaskSummary(t)
    ensures c.timeAgo == "Just now" <==> now - t.createdAt < MinuteMs
  {
    Card(t.id, t.kind, TimeAgo(now - t.createdAt), TaskSummary(t))
  }

  function Cards(tasks: seq<Task>, now: int): (r: seq<Card>)
    ensures |r| == |tasks| && forall i :: 0 <= i < |tasks| ==> r[i] == RenderCard(tasks[i], now)
  {
    seq(|tasks|, i requires 0 <= i < |tasks| => RenderCard(tasks[i], now))
  }

  class TaskQueueManager {
    var tasks: seq<Task>
    var effects: seq<Effect>
    var view: View

    constructor ()
      ensures tasks == [] && effects == [] && view == Loading
    {
      tasks := [];
      effects := [];
      view := Loading;
    }

    /**
     * `loadTasks`. `response` is the worker's task list when it answered
     * with success; `None` for a failed or missing answer.
     */
    method LoadTasks(response: Option<seq<Task>>)
      modifies this
      ensures response.Some? ==> tasks == WithStatus(response.value, Pending)
      ensures response.None? ==> tasks == old(tasks)
      ensures effects == old(effects) && view == old(view)
    {
      if response.Some? {
        tasks := Filter(response.value, HasStatus(Pending));
      }
    }

    /** `render`: the empty state exactly when no task is loaded, otherwise one card per task. */
    method Render(now: int)
      modifies this
      ensures view == if |tasks| == 0 then EmptyState else TaskList(Cards(tasks, now))
      ensures tasks == old(tasks) && effects == old(effects)
    {
      if |tasks| == 0 {
        view := EmptyState;
      } else {
        view := TaskList(Cards(tasks, now));
      }
    }

    /** `init`: load, then render. */
    method Init(response: Option<seq<Task>>, now: int)
      modifies this
      ensures tasks == (if response.Some? then WithStatus(response.value, Pending) else old(tasks))
      ensures view == if |tasks| == 0 then EmptyState else TaskList(Cards(tasks, now))
      ensures effects == old(effects)
    {
      LoadTasks(response);
      Render(now);
    }

    /**
     * `updateTaskStatus`: send the update, then reload from `reload` (the
     * worker's next answer) and render.
     */
    method UpdateTaskStatus(taskId: string, status: TaskStatus, additional: TaskUpdate,
                            reload: Option<seq<Task>>, now: int)
      modifies this
      ensures effects == old(effects) + [SentUpdate(taskId, StatusUpdate(status, additional))]
      ensures tasks == (if reload.Some? then WithStatus(reload.value, Pending) else old(tasks))
      ensures view == if |tasks| == 0 then EmptyState else TaskList(Cards(tasks, now))
    {
      effects := effects + [SentUpdate(taskId, StatusUpdate(status, additional))];
      LoadTasks(reload);
      Render(now);
    }

    /** `openGmailCompose`: the tab request is recorded whether or not opening it fails. */
    method OpenGmailCompose(data: TaskData)
      modifies this
      ensures effects == old(effects) + [OpenedTab(Url(Gmail.ComposeBase, Gmail.ComposeParams(EmailOf(data))))]
      ensures tasks == old(tasks) && view == old(view)
    {
      var url := Gmail.BuildComposeUrl(EmailOf(data));
      effects := effects + [OpenedTab(url)];
    }

    /**
     * `approveTask`: nothing when the id is not among the loaded tasks;
     * for an email task the compose window opens before the update is sent.
     */
    method ApproveTask(taskId: string, reload: Option<seq<Task>>, now: int)
      modifies this
      ensures var found := Find(old(tasks), taskId);
              found.None? ==> tasks == old(tasks) && effects == old(effects) && view == old(view)
      ensures var found := Find(old(tasks), taskId);
              found.Some? ==>
                effects == old(effects)
                           + (if found.value.kind == Email
                              then [OpenedTab(Url(Gmail.ComposeBase, Gmail.ComposeParams(EmailOf(found.value.data))))]
                              else [])
                           + [SentUpdate(taskId, StatusUpdate(Approved, NoUpdates))]
                && tasks == (if reload.Some? then WithStatus(reload.value, Pending) else old(tasks))
    {
      var task := Find(tasks, taskId);
      if task.None? {
        return;
      }
      if task.value.kind == Email {
        OpenGmailCompose(task.value.data);
      }
      UpdateTaskStatus(taskId, Approved, NoUpdates, reload, now);
    }

    /** `rejectTask`: the rejection is sent whether or not the id is loaded. */
    method RejectTask(taskId: string, reload: Option<seq<Task>>, now: int)
      modifies this
      ensures effects == old(effects) + [SentUpdate(taskId, TaskUpdate(Some(Rejected), None, None))]
      ensures tasks == (if reload.Some? then WithStatus(reload.value, Pending) else old(tasks))
    {
      UpdateTaskStatus(taskId, Rejected, NoUpdates, reload, now);
    }
  }

  /** The loaded list holds exactly the pending tasks of the answer, in order. */
  lemma LoadedArePending(answer: seq<Task>)
    ensures forall t :: t in WithStatus(answer, Pending) <==> t in answer && t.status == Pending
    ensures forall i :: 0 <= i < |WithStatus(answer, Pending)| ==> WithStatus(answer, Pending)[i].status == Pending
  {
    forall t ensures t in WithStatus(answer, Pending) <==> t in answer && t.status == Pending {
      FilterMembers(answer, HasStatus(Pending), t);
    }
    var w := WithStatus(answer, Pending);
    forall i | 0 <= i < |w| ensures w[i].status == Pending {
      assert w[i] in w;
    }
  }

  /** The popup opens the same compose URL as the Gmail helper for the same fields. */
  lemma PopupComposeParams(data: TaskData)
    requires "to" in data && "subject" in data && "body" in data
    ensures var e := EmailOf(data);
            e.to == data["to"] && e.subject == data["subject"] && e.body == data["body"]
            && Lookup(Gmail.ComposeParams(e), "to") == Some(data["to"])
            && Lookup(Gmail.ComposeParams(e), "su") == Some(data["subject"])
  {
    Gmail.ComposeParamsValues(EmailOf(data));
  }
}
