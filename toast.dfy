// The content script's sticky button: hidden, a small badge, an expanded
// notification for one new task, or the queue of pending tasks. Timers, the
// DOM and runtime messaging are events: a message sent is appended to an
// outbox, and each answer or timer arrives as a call of its own.
module Toast {
  import opened Common
  import opened TaskModel

  datatype ButtonState = Hidden | Small | NotificationView | QueueView

  /** The messages the content script sends to the background worker. */
  datatype Message =
    | GetPendingTaskCount
    | GetPendingTasks
    | ApproveTaskMessage(taskId: string)
    | RejectTaskMessage(taskId: string)
    | OpenPopup

  /**
   * A `GET_PENDING_TASK_COUNT` answer: `{success, count}`. Every answer
   * below is an `Option`, with `None` for the `null` that `safeSendMessage`
   * passes on a runtime error.
   */
  datatype CountAnswer = CountAnswer(success: bool, count: int)

  /** One row of the queue view. */
  datatype QueueItem = QueueItem(id: string, kind: TaskType, timeAgo: string, summary: string)

  /**
   * The summary in the expanded notification. `localTime` is the browser's
   * locale rendering of a date string.
   */
  function NotificationSummary(t: Task, localTime: string -> string): (r: string)
    ensures t.kind.OtherType? ==> r == "New task available"
    ensures t.kind == Email ==> r == "To: " + Field(t.data, "to") + "<br><strong>" + Field(t.data, "subject") + "</strong>"
    ensures t.kind == Calendar ==>
              r == "<strong>" + Field(t.data, "title") + "</strong><br>" + localTime(Field(t.data, "startTime"))
    ensures t.kind == Reminder ==> r == "<strong>" + Field(t.data, "title") + "</strong>"
  {
    match t.kind
    case Email => "To: " + Field(t.data, "to") + "<br><strong>" + Field(t.data, "subject") + "</strong>"
    case Calendar => "<strong>" + Field(t.data, "title") + "</strong><br>" + localTime(Field(t.data, "startTime"))
    case Reminder => "<strong>" + Field(t.data, "title") + "</strong>"
    case OtherType(_) => "New task available"
  }

  /** The location suffix of a calendar row, only when the location is truthy. */
  function LocationSuffix(data: TaskData): (r: string)
    ensures r == "" <==> !Present(OptionalField(data, "location"))
  {
    if Present(OptionalField(data, "location")) then "<br>@ " + data["location"] else ""
  }

  /** `getTaskSummary` of the queue view. */
  function QueueSummary(t: Task, localTime: string -> string): (r: string)
    ensures t.kind.OtherType? ==> r == "Task details unavailable"
    ensures t.kind == Email ==> r == "<strong>" + Field(t.data, "subject") + "</strong><br>To: " + Field(t.data, "to")
    ensures t.kind == Calendar ==>
              r == "<strong>" + Field(t.data, "title") + "</strong><br>" + localTime(Field(t.data, "startTime"))
                   + LocationSuffix(t.data)
    ensures t.kind == Reminder ==> r == "<strong>" + Field(t.data, "title") + "</strong>"
  {
    match t.kind
    case Email => "<strong>" + Field(t.data, "subject") + "</strong><br>To: " + Field(t.data, "to")
    case Calendar =>
      "<strong>" + Field(t.data, "title") + "</strong><br>" + localTime(Field(t.data, "startTime"))
      + LocationSuffix(t.data)
    case Reminder => "<strong>" + Field(t.data, "title") + "</strong>"
    case OtherType(_) => "Task details unavailable"
  }

  /**
   * The queue row of a calendar or reminder task is its notification text,
   * followed for a calendar task by the location suffix; only e-mail rows
   * put the two lines the other way round.
   */
  lemma QueueRowExtendsNotification(t: Task, localTime: string -> string)
    ensures t.kind == Calendar ==>
              QueueSummary(t, localTime) == NotificationSummary(t, localTime) + LocationSuffix(t.data)
    ensures t.kind == Reminder ==> QueueSummary(t, localTime) == NotificationSummary(t, localTime)
    ensures t.kind == Calendar && !Present(OptionalField(t.data, "location")) ==>
              QueueSummary(t, localTime) == NotificationSummary(t, localTime)
    ensures t.kind == Email ==> QueueSummary(t, localTime) != NotificationSummary(t, localTime)
  {
    if t.kind == Email {
      assert QueueSummary(t, localTime)[0] == '<' && NotificationSummary(t, localTime)[0] == 'T';
    }
  }

  function QueueItems(tasks: seq<Task>, now: int, localTime: string -> string): (r: seq<QueueItem>)
    ensures |r| == |tasks|
    ensures forall i :: 0 <= i < |tasks| ==> r[i].id == tasks[i].id && r[i].kind == tasks[i].kind
    ensures forall i :: 0 <= i < |tasks| ==> r[i].timeAgo == TimeAgo(now - tasks[i].createdAt)
    ensures forall i :: 0 <= i < |tasks| ==> r[i].summary == QueueSummary(tasks[i], localTime)
  {
    seq(|tasks|, i requires 0 <= i < |tasks| =>
      QueueItem(tasks[i].id, tasks[i].kind, TimeAgo(now - tasks[i].createdAt), QueueSummary(tasks[i], localTime)))
  }

  /** The auto-collapse delay of the notification view, in milliseconds. */
  const AutoCollapseMs := 10000

  /** The delay before the view refreshes after an approve or reject, in milliseconds. */
  const RefreshMs := 350

  class StickyButton {
    var state: ButtonState
    var taskCount: int
    /** Whether the button element is in the page. */
    var hasButton: bool
    var badge: string
    /** The pending auto-collapse timeout, by the number it was armed under. */
    var autoCollapse: Option<nat>
    /** How many auto-collapse timeouts have been armed. */
    var armed: nat
    var notificationTaskId: Option<string>
    var notification: string
    /** The count in the queue title, `Task Queue (n)`. */
    var queueTitleCount: int
    var queueItems: seq<QueueItem>
    var outbox: seq<Message>
    /** Refresh timeouts armed after a successful approve or reject that have not fired. */
    var refreshes: nat

    /**
     * What every handler keeps: a visible state has a button, hiding resets
     * the count, the small badge shows the count, and only the expanded
     * notification has an auto-collapse pending.
     */
    predicate Valid()
      reads this
    {
      (state != Hidden ==> hasButton)
      && (state == Hidden ==> taskCount == 0)
      && (state == Small ==> badge == IntToString(taskCount))
      && (autoCollapse.Some? ==> state == NotificationView)
    }

    constructor ()
      ensures state == Hidden && taskCount == 0 && !hasButton && autoCollapse.None? && armed == 0
      ensures notificationTaskId.None? && outbox == [] && refreshes == 0
      ensures Valid()
    {
      state := Hidden;
      taskCount := 0;
      hasButton := false;
      badge := "0";
      autoCollapse := None;
      armed := 0;
      notificationTaskId := None;
      notification := "";
      queueTitleCount := 0;
      queueItems := [];
      outbox := [];
      refreshes := 0;
    }

    /** `createStickyButton`: a new button shows the badge `0`; an existing one is kept. */
    method CreateStickyButton()
      modifies this
      ensures hasButton
      ensures badge == if old(hasButton) then old(badge) else "0"
      ensures state == old(state) && taskCount == old(taskCount) && autoCollapse == old(autoCollapse)
      ensures armed == old(armed) && notificationTaskId == old(notificationTaskId) && notification == old(notification)
      ensures queueTitleCount == old(queueTitleCount) && queueItems == old(queueItems)
      ensures outbox == old(outbox) && refreshes == old(refreshes)
    {
      if !hasButton {
        hasButton := true;
        badge := "0";
      }
    }

    /** `hideButton`: always hidden, with no button, count 0 and no auto-collapse. */
    method HideButton()
      modifies this
      ensures state == Hidden && taskCount == 0 && !hasButton && autoCollapse.None?
      ensures badge == old(badge) && armed == old(armed)
      ensures notificationTaskId == old(notificationTaskId) && notification == old(notification)
      ensures queueTitleCount == old(queueTitleCount) && queueItems == old(queueItems)
      ensures outbox == old(outbox) && refreshes == old(refreshes)
      ensures Valid()
    {
      hasButton := false;
      state := Hidden;
      taskCount := 0;
      autoCollapse := None;
    }

    /**
     * `collapseToButton`: nothing without a button; a count of 0 hides;
     * any other count shows the small badge with that count.
     */
    method CollapseToButton(count: int)
      modifies this
      ensures !old(hasButton) ==> state == old(state) && taskCount == old(taskCount) && hasButton == old(hasButton)
                                  && badge == old(badge) && autoCollapse == old(autoCollapse)
      ensures old(hasButton) && count == 0 ==> state == Hidden && taskCount == 0 && !hasButton && autoCollapse.None?
                                               && badge == old(badge)
      ensures old(hasButton) && count != 0 ==> state == Small && taskCount == count && hasButton
                                               && badge == IntToString(count) && autoCollapse.None?
      ensures armed == old(armed) && notificationTaskId == old(notificationTaskId) && notification == old(notification)
      ensures queueTitleCount == old(queueTitleCount) && queueItems == old(queueItems)
      ensures outbox == old(outbox) && refreshes == old(refreshes)
      ensures old(Valid()) ==> Valid()
    {
      if !hasButton {
        return;
      }
      taskCount := count;
      if count == 0 {
        HideButton();
        return;
      }
      badge := IntToString(count);
      state := Small;
      autoCollapse := None;
    }

    /**
     * `updateButtonState`: the count is always recorded; 0 hides; a small
     * button refreshes its badge; a hidden one comes back small; the
     * notification and queue views are left as they are.
     */
    method UpdateButtonState(count: int)
      modifies this
      ensures count == 0 ==> state == Hidden && taskCount == 0 && !hasButton && autoCollapse.None?
      ensures count != 0 && old(state) in {Small, Hidden} ==>
                state == Small && taskCount == count && hasButton && badge == IntToString(count)
      ensures count != 0 && old(state) == Small && old(hasButton) ==> autoCollapse == old(autoCollapse)
      ensures count != 0 && (old(state) == Hidden || !old(hasButton)) && old(state) in {Small, Hidden} ==>
                autoCollapse.None?
      ensures count != 0 && old(state) in {NotificationView, QueueView} ==>
                state == old(state) && taskCount == count && hasButton == old(hasButton) && badge == old(badge)
                && autoCollapse == old(autoCollapse)
      ensures armed == old(armed) && notificationTaskId == old(notificationTaskId) && notification == old(notification)
      ensures queueTitleCount == old(queueTitleCount) && queueItems == old(queueItems)
      ensures outbox == old(outbox) && refreshes == old(refreshes)
      ensures old(Valid()) ==> Valid()
    {
      taskCount := count;
      if count == 0 {
        HideButton();
      } else if state == Small {
        if hasButton {
          badge := IntToString(count);
        } else {
          CreateStickyButton();
          CollapseToButton(count);
        }
      } else if state == Hidden {
        CreateStickyButton();
        CollapseToButton(count);
      }
    }

    /**
     * `showNotification`: the expanded view for the task, with the old
     * auto-collapse cleared and exactly one new one armed.
     */
    method ShowNotification(t: Task, localTime: string -> string)
      modifies this
      ensures state == NotificationView && hasButton
      ensures notificationTaskId == Some(t.id) && notification == NotificationSummary(t, localTime)
      ensures autoCollapse == Some(old(armed)) && armed == old(armed) + 1
      ensures taskCount == old(taskCount) && badge == (if old(hasButton) then old(badge) else "0")
      ensures queueTitleCount == old(queueTitleCount) && queueItems == old(queueItems)
      ensures outbox == old(outbox) && refreshes == old(refreshes)
      ensures old(Valid()) ==> Valid()
    {
      CreateStickyButton();
      notificationTaskId := Some(t.id);
      notification := NotificationSummary(t, localTime);
      state := NotificationView;
      autoCollapse := Some(armed);  // the old timeout, if any, is cleared by arming the new one
      armed := armed + 1;
    }

    /**
     * `safeSendMessage`: without a runtime id nothing is sent and the
     * result is false; otherwise the message goes out.
     */
    method SafeSendMessage(m: Message, runtimeId: bool) returns (sent: bool)
      modifies this
      ensures sent == runtimeId
      ensures outbox == old(outbox) + (if runtimeId then [m] else [])
      ensures state == old(state) && taskCount == old(taskCount) && hasButton == old(hasButton)
      ensures badge == old(badge) && autoCollapse == old(autoCollapse) && armed == old(armed)
      ensures notificationTaskId == old(notificationTaskId) && notification == old(notification)
      ensures queueTitleCount == old(queueTitleCount) && queueItems == old(queueItems)
      ensures refreshes == old(refreshes)
    {
      if !runtimeId {
        return false;
      }
      outbox := outbox + [m];
      sent := true;
    }

    /** `requestTaskCountAndCollapse`: ask for the count; the answer arrives in `OnCountAnswer`. */
    method RequestTaskCountAndCollapse(runtimeId: bool)
      modifies this
      ensures outbox == old(outbox) + (if runtimeId then [GetPendingTaskCount] else [])
      ensures state == old(state) && taskCount == old(taskCount) && hasButton == old(hasButton)
      ensures badge == old(badge) && autoCollapse == old(autoCollapse) && armed == old(armed)
      ensures notificationTaskId == old(notificationTaskId) && notification == old(notification)
      ensures queueTitleCount == old(queueTitleCount) && queueItems == old(queueItems)
      ensures refreshes == old(refreshes)
    {
      var _ := SafeSendMessage(GetPendingTaskCount, runtimeId);
    }

    /** The count answer: collapse to the answered count, or to the current one on failure. */
    method OnCountAnswer(answer: Option<CountAnswer>)
      modifies this
      ensures var n := if answer.Some? && answer.value.success then answer.value.count else old(taskCount);
              old(hasButton) && n != 0 ==> state == Small && taskCount == n && badge == IntToString(n)
      ensures var n := if answer.Some? && answer.value.success then answer.value.count else old(taskCount);
              old(hasButton) && n == 0 ==> state == Hidden && taskCount == 0 && !hasButton
      ensures !old(hasButton) ==> state == old(state) && taskCount == old(taskCount) && hasButton == old(hasButton)
      ensures outbox == old(outbox) && refreshes == old(refreshes) && armed == old(armed)
      ensures old(Valid()) ==> Valid()
    {
      if answer.Some? && answer.value.success {
        CollapseToButton(answer.value.count);
      } else {
        CollapseToButton(taskCount);
      }
    }

    /** The initial count request: the small button appears only when the count is positive. */
    method OnStartupCount(answer: Option<CountAnswer>)
      modifies this
      ensures answer.Some? && answer.value.success && answer.value.count > 0 ==>
                state == Small && hasButton && taskCount == answer.value.count
                && badge == IntToString(answer.value.count)
      ensures !(answer.Some? && answer.value.success && answer.value.count > 0) ==>
                state == old(state) && hasButton == old(hasButton) && taskCount == old(taskCount) && badge == old(badge)
      ensures outbox == old(outbox) && refreshes == old(refreshes) && armed == old(armed)
      ensures old(Valid()) ==> Valid()
    {
      if answer.Some? && answer.value.success && answer.value.count > 0 {
        CreateStickyButton();
        CollapseToButton(answer.value.count);
      }
    }

    /** `showQueueView`: make sure the button exists and ask for the pending tasks. */
    method ShowQueueView(runtimeId: bool)
      modifies this
      ensures hasButton && badge == (if old(hasButton) then old(badge) else "0")
      ensures outbox == old(outbox) + (if runtimeId then [GetPendingTasks] else [])
      ensures state == old(state) && taskCount == old(taskCount) && autoCollapse == old(autoCollapse)
      ensures armed == old(armed) && notificationTaskId == old(notificationTaskId) && notification == old(notification)
      ensures queueTitleCount == old(queueTitleCount) && queueItems == old(queueItems)
      ensures refreshes == old(refreshes)
      ensures old(Valid()) ==> Valid()
    {
      CreateStickyButton();
      var _ := SafeSendMessage(GetPendingTasks, runtimeId);
    }

    /**
     * `renderQueueView`: nothing without a button; otherwise the queue view
     * with one row per task and the task count in its title.
     */
    method RenderQueueView(tasks: seq<Task>, now: int, localTime: string -> string)
      modifies this
      ensures !old(hasButton) ==> state == old(state) && queueTitleCount == old(queueTitleCount)
                                  && queueItems == old(queueItems) && autoCollapse == old(autoCollapse)
      ensures old(hasButton) ==> state == QueueView && queueTitleCount == |tasks|
                                 && queueItems == QueueItems(tasks, now, localTime) && autoCollapse.None?
      ensures taskCount == old(taskCount) && hasButton == old(hasButton) && badge == old(badge)
      ensures armed == old(armed) && notificationTaskId == old(notificationTaskId) && notification == old(notification)
      ensures outbox == old(outbox) && refreshes == old(refreshes)
      ensures old(Valid()) ==> Valid()
    {
      if !hasButton {
        return;
      }
      queueTitleCount := |tasks|;
      queueItems := QueueItems(tasks, now, localTime);
      state := QueueView;
      autoCollapse := None;
    }

    /** The pending-tasks answer: the queue is rendered only after a successful answer. */
    method OnPendingTasks(answer: Option<seq<Task>>, now: int, localTime: string -> string)
      modifies this
      ensures answer.Some? && old(hasButton) ==> state == QueueView && queueTitleCount == |answer.value|
      ensures answer.None? ==> state == old(state) && queueItems == old(queueItems)
      ensures taskCount == old(taskCount) && hasButton == old(hasButton) && outbox == old(outbox)
      ensures old(Valid()) ==> Valid()
    {
      if answer.Some? {
        RenderQueueView(answer.value, now, localTime);
      }
    }

    /** The button's click handler: small opens the queue, queue collapses, other states ignore it. */
    method Click(runtimeId: bool)
      modifies this
      ensures old(state) == Small ==> outbox == old(outbox) + (if runtimeId then [GetPendingTasks] else [])
                                      && state == Small
      ensures old(state) == QueueView && old(hasButton) && old(taskCount) != 0 ==>
                state == Small && badge == IntToString(old(taskCount)) && outbox == old(outbox)
      ensures old(state) == QueueView && old(hasButton) && old(taskCount) == 0 ==> state == Hidden && !hasButton
      ensures old(state) in {Hidden, NotificationView} ==>
                state == old(state) && outbox == old(outbox) && hasButton == old(hasButton) && badge == old(badge)
                && taskCount == old(taskCount)
      ensures old(Valid()) ==> Valid()
    {
      if state == Small {
        ShowQueueView(runtimeId);
      } else if state == QueueView {
        CollapseToButton(taskCount);
      }
    }

    /** The auto-collapse timeout fires: ask for the count, as the close button does. */
    method OnAutoCollapse(runtimeId: bool)
      requires autoCollapse.Some?
      modifies this
      ensures autoCollapse.None?
      ensures outbox == old(outbox) + (if runtimeId then [GetPendingTaskCount] else [])
      ensures state == old(state) && taskCount == old(taskCount) && hasButton == old(hasButton) && badge == old(badge)
      ensures old(Valid()) ==> Valid()
    {
      autoCollapse := None;
      RequestTaskCountAndCollapse(runtimeId);
    }

    /** `approveTask`: send the approval; false when the extension context is gone. */
    method ApproveTask(taskId: string, runtimeId: bool) returns (sent: bool)
      modifies this
      ensures sent == runtimeId
      ensures outbox == old(outbox) + (if runtimeId then [ApproveTaskMessage(taskId)] else [])
      ensures state == old(state) && taskCount == old(taskCount) && hasButton == old(hasButton) && badge == old(badge)
      ensures autoCollapse == old(autoCollapse) && refreshes == old(refreshes)
    {
      sent := SafeSendMessage(ApproveTaskMessage(taskId), runtimeId);
    }

    /** `rejectTask`: send the rejection; false when the extension context is gone. */
    method RejectTask(taskId: string, runtimeId: bool) returns (sent: bool)
      modifies this
      ensures sent == runtimeId
      ensures outbox == old(outbox) + (if runtimeId then [RejectTaskMessage(taskId)] else [])
      ensures state == old(state) && taskCount == old(taskCount) && hasButton == old(hasButton) && badge == old(badge)
      ensures autoCollapse == old(autoCollapse) && refreshes == old(refreshes)
    {
      sent := SafeSendMessage(RejectTaskMessage(taskId), runtimeId);
    }

    /** The approve or reject answer: a success arms one refresh; a failure changes nothing. */
    method OnActionAnswer(answer: Option<bool>)
      modifies this
      ensures refreshes == old(refreshes) + (if answer == Some(true) then 1 else 0)
      ensures state == old(state) && taskCount == old(taskCount) && hasButton == old(hasButton) && badge == old(badge)
      ensures autoCollapse == old(autoCollapse) && outbox == old(outbox)
      ensures old(Valid()) ==> Valid()
    {
      if answer == Some(true) {
        refreshes := refreshes + 1;
      }
    }

    /**
     * A refresh timeout fires: the notification view asks for the count,
     * the queue view reloads, and other states do nothing.
     */
    method OnRefresh(runtimeId: bool)
      requires refreshes > 0
      modifies this
      ensures refreshes == old(refreshes) - 1
      ensures old(state) == NotificationView ==> outbox == old(outbox) + (if runtimeId then [GetPendingTaskCount] else [])
      ensures old(state) == QueueView ==> outbox == old(outbox) + (if runtimeId then [GetPendingTasks] else [])
      ensures old(state) in {Hidden, Small} ==> outbox == old(outbox)
      ensures state == old(state) && taskCount == old(taskCount)
      ensures old(Valid()) ==> Valid()
    {
      refreshes := refreshes - 1;
      if state == NotificationView {
        RequestTaskCountAndCollapse(runtimeId);
      } else if state == QueueView {
        ShowQueueView(runtimeId);
      }
    }

    /** The queue footer's button. */
    method OpenFullQueue(runtimeId: bool)
      modifies this
      ensures outbox == old(outbox) + (if runtimeId then [OpenPopup] else [])
      ensures state == old(state) && taskCount == old(taskCount) && hasButton == old(hasButton) && badge == old(badge)
      ensures autoCollapse == old(autoCollapse) && refreshes == old(refreshes)
    {
      var _ := SafeSendMessage(OpenPopup, runtimeId);
    }
  }
}
