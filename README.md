# TEDAI task assistant — verified model of its sequential core

TEDAI watches the user's screen and proposes e-mails and calendar events as tasks. A Chrome extension queues them for approval. A backend serves the chat, the voice and the monitor routes and runs the assistant's tools. Two web front ends show the chat and the snapshot timeline.

This Dafny project models the deterministic logic under that glue. Each module corresponds to one source file:

- **The extension's approval queue.** `TaskModel`, `Storage`, `Background` and `Popup` model the task records, the storage service, the background worker and the popup.
- **The extension's client state machines.** `Toast` is the sticky button, `Swipe` the drag-to-approve gesture and `Toggle` the monitoring switch.
- **Serialisers and validators.**
  - `Calendar` builds the Google Calendar URL and the RFC 5545 iCalendar file.
  - `Gmail` builds the compose URL and validates e-mail tasks.
  - `CreateCalendarEvent`, `SendEmail` and `CreateEmail` model the three tools.
  - `SnapshotContext` and `SnapshotContextAdd` model the two snapshot lookups.
  - `LocalTime` formats local timestamps.
- **Backend request handling.**
  - `ChatRoute` covers message validation, long polling and the waiter table.
  - `ConversationRoutes`, `VoiceRoute` and `MonitorRoute` model the guard chains of the other routes.
  - `Streaming` is the capture scheduler and `VoiceService` the local speech service.
- **Helpers.**
  - `Retry` models `withRetry` and `ToolRegistry` the tool registry.
  - `Config` splits model names.
  - `Scenarios` holds the demonstration scenarios.
  - `ScreenshotDiff` is the screen-difference percentage.
  - `Timeline`, `ChatClient` and `ChatPanel` model the front ends' timeline and chat screens.

`Common` holds the JavaScript value semantics the modules share:
- optional values, truthiness and `trim()`;
- prefix tests and first-occurrence replacement;
- decimal numerals and `parseInt`;
- `join`/`split`, filtering and ordered key/value lists.

How the environment is represented:
- **Stateful code becomes classes.** The stored task array, the sticky button, the gesture handler, the toggle, the waiter table, the streaming service and the React components become classes whose methods update their fields. Their `ensures` clauses state the new state.
- **Asynchronous handlers take what their `await`s returned as inputs.** Where a handler's state can be observed between its `await`s, it is split into a method that runs before the `await` and one that runs after it. The other handlers are single methods, given the awaited outcomes as parameters. `Toggle.ScreenshotToggle.Toggle`, `Popup.TaskQueueManager.UpdateTaskStatus` and `Popup.TaskQueueManager.ApproveTask` are of this kind.
- **Timers, alarms, runtime messages, requests, database answers, scripts and the clock are inputs.** They arrive as parameters or as events delivered by method calls.
- **Numbers.**
  - Integers are unbounded.
  - Ratios and percentages that the source computes in double precision are exact reals.
  - Instants are integer milliseconds.

## Model

| member | source | states |
|---|---|---|
| TaskModel.Field | chrome-extension/popup.js:190-197 | a payload field interpolated into a summary is its value, or `undefined` when the key is missing |
| TaskModel.OptionalField | chrome-extension/toast-notification.js:826-829 | an optional payload field is present exactly when its key is, with the stored value |
| TaskModel.PendingCountAppend | chrome-extension/background.js:36 | appending one task raises the pending count by one exactly when that task is pending |
| TaskModel.FindIndex | chrome-extension/src/services/storage.ts:46 | the index found is the first task with the id; none is found exactly when no task has it |
| TaskModel.Find | chrome-extension/background.js:119 | a task is found exactly when some task has the id, and it is a stored task with that id |
| TaskModel.RemoveIdSpec | chrome-extension/src/services/storage.ts:65-69 | deleting keeps exactly the tasks with other ids, leaves the id absent, and changes nothing for an unknown id |
| TaskModel.MergeUpdate | chrome-extension/src/services/storage.ts:53-57 | id, type and creation time are kept; a given payload is merged key by key (update wins), otherwise the old payload stays |
| TaskModel.SpreadUpdate | chrome-extension/background.js:213 | the background update keeps id, type and creation time and replaces the whole payload when one is given |
| TaskModel.UpdateStatus | chrome-extension/src/services/storage.ts:53-57 | both update styles leave the same status: the update's when it names one, the old one otherwise |
| TaskModel.UpdatesIdempotent | chrome-extension/src/services/storage.ts:53-57 | applying the same update twice equals applying it once, for both update styles |
| TaskModel.MergeAgreesWithoutData | chrome-extension/src/services/storage.ts:56 | without a payload in the update the merging and the replacing update coincide |
| TaskModel.EmptyUpdateIdentity | chrome-extension/src/services/storage.ts:53-57 | an update naming nothing leaves the task unchanged |
| TaskModel.AlarmName | chrome-extension/background.js:220 | the snooze alarm name starts with `snooze_` |
| TaskModel.AlarmNameRoundTrip | chrome-extension/background.js:356-358 | the alarm listener recovers from an alarm name the task id it was created for |
| TaskModel.AlarmTaskIdInverse | chrome-extension/background.js:357-358 | every `snooze_` name the listener accepts is the alarm name of the id it recovers |
| TaskModel.TimeAgo | chrome-extension/popup.js:202-213 | the label is "Just now" exactly when less than a minute has passed |
| TaskModel.AgeOfBounds | chrome-extension/popup.js:205-212 | the figure shown is the elapsed time floored to minutes below an hour, hours below a day, days otherwise, and is at least 1 |
| TaskModel.AgeLabelParts | chrome-extension/popup.js:210-212 | a non-immediate label is the count, the unit letter and " ago" |
| TaskModel.AgeLabelInjective | chrome-extension/popup.js:209-212 | different ages get different labels |
| TaskStorage.NotFoundMessage | chrome-extension/src/services/storage.ts:49 | the error for an unknown id starts with "Task with ID " |
| TaskStorage.TaskStorageService.constructor | chrome-extension/src/services/storage.ts:5 | storage starts without a queue |
| TaskStorage.TaskStorageService.GetTasks | chrome-extension/src/services/storage.ts:20-23 | the stored array, or the empty list when nothing is stored |
| TaskStorage.TaskStorageService.AddTask | chrome-extension/src/services/storage.ts:11-15 | the stored queue becomes the old queue with the task appended |
| TaskStorage.TaskStorageService.GetTasksByStatus | chrome-extension/src/services/storage.ts:28-31 | exactly the stored tasks with the status, in queue order |
| TaskStorage.TaskStorageService.GetPendingTasksCount | chrome-extension/src/services/storage.ts:36-39 | the number of pending tasks, at most the queue length |
| TaskStorage.TaskStorageService.UpdateTask | chrome-extension/src/services/storage.ts:44-60 | an unknown id fails with the not-found error and writes nothing; otherwise only the first match is replaced by its merged update |
| TaskStorage.TaskStorageService.DeleteTask | chrome-extension/src/services/storage.ts:65-69 | the stored queue becomes the old one without the tasks of that id |
| TaskStorage.TaskStorageService.ClearAllTasks | chrome-extension/src/services/storage.ts:74-76 | the key is removed, so the queue reads as empty |
| TaskStorage.TaskStorageService.GetDueSnoozedTasks | chrome-extension/src/services/storage.ts:81-89 | exactly the snoozed tasks with a wake-up time not after now, in order |
| TaskStorage.UpdateTouchesOnlyFirstMatch | chrome-extension/src/services/storage.ts:46-57 | an update keeps the queue length and every task except the first match |
| TaskStorage.AddTaskPendingCount | chrome-extension/src/services/storage.ts:11-15 | adding a task raises the pending count exactly when it is pending, and appends it to its status list |
| Background.BadgeText | chrome-extension/background.js:34-44 | the badge is empty exactly when no task is pending |
| Background.BadgeTextReadsBack | chrome-extension/background.js:38-39 | a non-empty badge parses back to the pending count |
| Background.ActionFor | chrome-extension/background.js:242-258 | email tasks open Gmail, calendar and reminder tasks open Calendar, other types open nothing |
| Background.GenerateTaskId | chrome-extension/background.js:506-508 | generated ids start with `task_` |
| Background.GeneratedIdsDistinct | chrome-extension/background.js:506-508 | ids generated at different clock readings differ, since the base-36 random part holds no `_` |
| Background.Admit | chrome-extension/background.js:187-195 | an added task gets the new id and creation time and status pending, keeping its type and payload |
| Background.Admitted | chrome-extension/background.js:395-398 | the k-th task admitted by a poll carries the k-th id and time |
| Background.PollStep | chrome-extension/background.js:395-396 | extending the scanned batch by one task extends the admitted list by it exactly when its id is unknown |
| Background.BackgroundWorker.constructor | chrome-extension/background.js:370-371 | nothing stored, empty badge, no alarms, not polling |
| Background.BackgroundWorker.GetTasks | chrome-extension/background.js:28-31 | the stored array, or the empty list |
| Background.BackgroundWorker.UpdateBadgeCount | chrome-extension/background.js:34-44 | the badge shows the pending count of the stored queue |
| Background.BackgroundWorker.BroadcastButtonStateUpdate | chrome-extension/background.js:47-60 | the pending count is broadcast to the tabs |
| Background.BackgroundWorker.HandleAddTask | chrome-extension/background.js:187-204 | the admitted task is appended and the badge refreshed |
| Background.BackgroundWorker.HandleUpdateTask | chrome-extension/background.js:206-239 | an unknown id changes nothing; otherwise the first match is spread-updated, the badge refreshed, a snooze with a time sets the `snooze_` alarm, and the count is broadcast |
| Background.BackgroundWorker.ApproveTask | chrome-extension/background.js:114-141 | an unknown id answers "Task not found"; a failing tab answers its error without approving; otherwise the task is approved and success answered |
| Background.BackgroundWorker.RejectTask | chrome-extension/background.js:142-150 | success is answered even for an unknown id; a known task becomes rejected |
| Background.BackgroundWorker.OnAlarm | chrome-extension/background.js:356-367 | the fired one-shot alarm is gone; a `snooze_` alarm returns its task to pending, clears its wake-up time and broadcasts the count; other alarms leave the queue, badge and broadcasts alone |
| Background.BackgroundWorker.GetPendingTaskCount | chrome-extension/background.js:333-342 | the number of pending tasks |
| Background.BackgroundWorker.GetPendingTasks | chrome-extension/background.js:344-353 | exactly the pending tasks, in order |
| Background.BackgroundWorker.PollForTasks | chrome-extension/background.js:375-446 | a failed response or an empty list changes nothing; otherwise the unknown server tasks are admitted in order up to the first whose handled post rejects, which stays stored but unposted and unannounced; the count is broadcast only when no post rejected and some task was added |
| Background.PostsBeforeRejection | chrome-extension/background.js:401-445 | the number of handled posts that go through before the first rejected one, which ends the poll in its `catch` |
| Background.BackgroundWorker.AdmitNewTasks | chrome-extension/background.js:390-441 | the loop admits, in order, each server task whose id is not among the stored ids, with a toast and a handled post each, and stops after storing the first task whose post rejects |
| Background.BackgroundWorker.AdmitNext | chrome-extension/background.js:396-405 | a task with a new id is stored; the poll stops at it exactly when its handled post rejects, and otherwise counts it as added |
| Background.BackgroundWorker.AdmitPolled | chrome-extension/background.js:396-405 | one loop step extends the queue by the next admitted task, and the toasts and handled ids too unless its post rejects |
| Background.BackgroundWorker.AdmitServerTask | chrome-extension/background.js:398-422 | one admitted server task is stored; unless its handled post rejects, it is recorded as posted and a toast is sent towards the active tab |
| Background.BackgroundWorker.ClearAllTasks | chrome-extension/background.js:452-460 | the queue is emptied and the badge cleared |
| Background.BackgroundWorker.StartPolling | chrome-extension/background.js:463-478 | polling is on afterwards, and a first poll runs only if no interval existed |
| Background.BackgroundWorker.Initialize | chrome-extension/background.js:481-503 | startup keeps only the pending tasks (writing only when some were dropped), shows their number on the badge and starts polling |
| Background.PrunedAllPending | chrome-extension/background.js:488-495 | after pruning every task is pending, so the badge shows the queue length, and pruning again changes nothing |
| Background.AdmittedFromUnknownIds | chrome-extension/background.js:391-398 | every admitted task is pending, carries its stamp and comes from a server task with an unknown id |
| Background.RepollAdmitsAgain | chrome-extension/background.js:391-396 | stored tasks carry fresh ids, so a second poll of the same batch admits the same server tasks again |
| Popup.TaskSummary | chrome-extension/popup.js:189-200 | one line per task type: `To: <to> - …` for email, `Event: …`, `Reminder: …`, and "Unknown task type" otherwise |
| Popup.TaskSummaryFallback | chrome-extension/popup.js:197-198 | the fallback text appears exactly for tasks of another type |
| Popup.StatusUpdate | chrome-extension/popup.js:119 | the update always names a status, and carries the extra updates' wake-up time and payload |
| Popup.StatusUpdateOverrides | chrome-extension/popup.js:113-119 | without extra updates only the status is sent; a status among the extra updates overrides the argument |
| Popup.RenderCard | chrome-extension/popup.js:166-187 | a card shows the task's id and type, the age label of its creation time ("Just now" exactly under a minute) and its summary line |
| Popup.Cards | chrome-extension/popup.js:162 | one card per loaded task, in order |
| Popup.TaskQueueManager.constructor | chrome-extension/popup.js:6-11 | no tasks, no effects, the loading view |
| Popup.TaskQueueManager.LoadTasks | chrome-extension/popup.js:20-33 | a successful answer replaces the list by its pending tasks; a failed one keeps the list |
| Popup.TaskQueueManager.Render | chrome-extension/popup.js:148-164 | the empty state exactly when no task is loaded, otherwise one card per task |
| Popup.TaskQueueManager.Init | chrome-extension/popup.js:13-18 | load, then render the loaded list |
| Popup.TaskQueueManager.UpdateTaskStatus | chrome-extension/popup.js:113-127 | the update is sent, then the list reloaded and rendered |
| Popup.TaskQueueManager.OpenGmailCompose | chrome-extension/popup.js:129-146 | a compose tab with to, su, body and the truthy cc/bcc is requested |
| Popup.TaskQueueManager.ApproveTask | chrome-extension/popup.js:96-106 | an id not loaded does nothing; an email task opens compose before the approval is sent; other types only send it |
| Popup.TaskQueueManager.RejectTask | chrome-extension/popup.js:108-111 | the rejection is sent whether or not the id is loaded, then the list reloads |
| Popup.LoadedArePending | chrome-extension/popup.js:27 | the loaded list holds exactly the answer's pending tasks, all pending, in order |
| Popup.PopupComposeParams | chrome-extension/popup.js:131-139 | the popup builds the same compose URL as the Gmail helper for the same fields |
| Toast.NotificationSummary | chrome-extension/toast-notification.js:529-544 | the whole text per type: `To: <to><br><strong><subject></strong>` for email, the bold title, `<br>` and the local start time for calendar, the bold title for reminder, "New task available" otherwise |
| Toast.LocationSuffix | chrome-extension/toast-notification.js:828 | the location suffix is empty exactly when the location is missing or empty |
| Toast.QueueSummary | chrome-extension/toast-notification.js:821-835 | the whole text per type: the bold subject, `<br>To: ` and the recipient for email; the bold title, `<br>`, the local start time and the location suffix for calendar; the bold title for reminder; "Task details unavailable" otherwise |
| Toast.QueueRowExtendsNotification | chrome-extension/toast-notification.js:821-835 | a calendar row is the notification text plus the location suffix, a reminder row is the notification text, and an email row differs from it |
| Toast.QueueItems | chrome-extension/toast-notification.js:733-743 | one row per task with its id, type, age label and queue summary |
| Toast.StickyButton.constructor | chrome-extension/toast-notification.js:3-9 | hidden, count 0, no button, no timeout |
| Toast.StickyButton.CreateStickyButton | chrome-extension/toast-notification.js:28-31 | an existing button is kept; a new one shows badge 0; nothing else changes |
| Toast.StickyButton.HideButton | chrome-extension/toast-notification.js:650-661 | hidden, no button, count 0, auto-collapse cleared |
| Toast.StickyButton.CollapseToButton | chrome-extension/toast-notification.js:622-647 | no button: nothing; count 0: hidden; otherwise the small state showing that count, auto-collapse cleared |
| Toast.StickyButton.UpdateButtonState | chrome-extension/toast-notification.js:664-689 | count 0 hides; a small or hidden button shows the count in the small state; the notification and queue views are left as they are |
| Toast.StickyButton.ShowNotification | chrome-extension/toast-notification.js:522-619 | the notification view for the task, with the previous auto-collapse cleared and one new one armed |
| Toast.StickyButton.SafeSendMessage | chrome-extension/toast-notification.js:932-953 | without a runtime id nothing is sent and false returned; otherwise the message is sent |
| Toast.StickyButton.RequestTaskCountAndCollapse | chrome-extension/toast-notification.js:852-863 | asks the worker for the pending count |
| Toast.StickyButton.OnCountAnswer | chrome-extension/toast-notification.js:855-862 | collapses to the answered count, or to the current one when the answer failed |
| Toast.StickyButton.OnStartupCount | chrome-extension/toast-notification.js:956-961 | the small button appears at load only for a positive count |
| Toast.StickyButton.ShowQueueView | chrome-extension/toast-notification.js:692-703 | ensures a button and asks for the pending tasks |
| Toast.StickyButton.RenderQueueView | chrome-extension/toast-notification.js:706-720 | without a button nothing; otherwise the queue view with one row per task and the count in the title |
| Toast.StickyButton.OnPendingTasks | chrome-extension/toast-notification.js:698-702 | the queue is rendered only after a successful answer |
| Toast.StickyButton.Click | chrome-extension/toast-notification.js:508-514 | small opens the queue, queue collapses to the current count, other states ignore the click |
| Toast.StickyButton.OnAutoCollapse | chrome-extension/toast-notification.js:616-618 | the expired timeout asks for the count and is cleared |
| Toast.StickyButton.ApproveTask | chrome-extension/toast-notification.js:880-903 | sends the approval; false when the extension context is gone |
| Toast.StickyButton.RejectTask | chrome-extension/toast-notification.js:906-929 | sends the rejection; false when the extension context is gone |
| Toast.StickyButton.OnActionAnswer | chrome-extension/toast-notification.js:886-897 | a successful answer arms one refresh; a failure changes nothing |
| Toast.StickyButton.OnRefresh | chrome-extension/toast-notification.js:888-894 | the notification view asks for the count, the queue view reloads, other states do nothing |
| Toast.StickyButton.OpenFullQueue | chrome-extension/toast-notification.js:866-869 | asks the worker to open the popup |
| Swipe.OrDefault | chrome-extension/src/utils/swipeGestures.js:8-9 | a missing or zero option takes the default; any other value is kept |
| Swipe.DirectionOf | chrome-extension/src/utils/swipeGestures.js:165-166 | the direction is right exactly when the horizontal move is positive |
| Swipe.SwipeFraction | chrome-extension/src/utils/swipeGestures.js:164 | the moved fraction of the width: NaN for 0/0, infinite for a move over zero width, otherwise non-negative with fraction·width = distance |
| Swipe.Label | chrome-extension/src/utils/swipeGestures.js:184-194 | the overlay label starts with ✓ for right and ✗ for left |
| Swipe.SwipeGestureHandler.constructor | chrome-extension/src/utils/swipeGestures.js:5-32 | options take their defaults when falsy, the drag state is zero, and the listeners are attached |
| Swipe.SwipeGestureHandler.Init | chrome-extension/src/utils/swipeGestures.js:34-62 | the listeners are attached once; a second call changes nothing |
| Swipe.SwipeGestureHandler.Destroy | chrome-extension/src/utils/swipeGestures.js:266-288 | every listener is removed, the transform cleared, and init may run again |
| Swipe.SwipeGestureHandler.StartSwipe | chrome-extension/src/utils/swipeGestures.js:120-133 | dragging from the point with zero deltas, and the start callback reported |
| Swipe.SwipeGestureHandler.HandleTouchStart | chrome-extension/src/utils/swipeGestures.js:105-108 | a touch starts a drag at its point |
| Swipe.SwipeGestureHandler.HandleMouseDown | chrome-extension/src/utils/swipeGestures.js:109-118 | only the main button starts a drag and attaches the document listeners |
| Swipe.SwipeGestureHandler.UpdateOverlay | chrome-extension/src/utils/swipeGestures.js:178-195 | the overlay opacity is min(2·progress, 0.8) and the label follows the direction |
| Swipe.SwipeGestureHandler.UpdateSwipe | chrome-extension/src/utils/swipeGestures.js:152-176 | the deltas are the pointer minus the start; a mostly vertical move stops there, any other moves the element and updates the overlay |
| Swipe.SwipeGestureHandler.HandleTouchMove | chrome-extension/src/utils/swipeGestures.js:135-144 | ignored unless dragging; page scrolling is suppressed exactly for a mostly horizontal move |
| Swipe.SwipeGestureHandler.HandleMouseMove | chrome-extension/src/utils/swipeGestures.js:146-150 | ignored unless dragging |
| Swipe.SwipeGestureHandler.AnimateOffScreen | chrome-extension/src/utils/swipeGestures.js:230-250 | the element slides past the edge of its direction, fades out, and its callback is scheduled |
| Swipe.SwipeGestureHandler.CancelSwipe | chrome-extension/src/utils/swipeGestures.js:252-264 | back in place with a clear overlay, and the cancel callback reported |
| Swipe.SwipeGestureHandler.EndSwipe | chrome-extension/src/utils/swipeGestures.js:212-228 | the drag ends; a swipe schedules the callback of its direction, anything shorter cancels |
| Swipe.SwipeGestureHandler.HandleTouchEnd | chrome-extension/src/utils/swipeGestures.js:197-200 | ignored unless dragging, otherwise ends the swipe |
| Swipe.SwipeGestureHandler.HandleMouseUp | chrome-extension/src/utils/swipeGestures.js:202-210 | ignored unless dragging, otherwise ends the swipe and detaches the document listeners |
| Swipe.SwipeGestureHandler.OnSlideOutDone | chrome-extension/src/utils/swipeGestures.js:243-249 | the oldest scheduled swipe reaches its right or left callback |
| Swipe.SwipeGestureHandler.Reset | chrome-extension/src/utils/swipeGestures.js:290-297 | the element back in place and opaque, the overlay clear |
| Swipe.ZeroOptionTakesDefault | chrome-extension/src/utils/swipeGestures.js:8-9 | a zero threshold or distance takes the default just like a missing one |
| Swipe.ProgressInUnitInterval | chrome-extension/src/utils/swipeGestures.js:164 | progress lies in [0, 1], is never infinite, is NaN only for no move over zero width, and is 1 exactly when the move covers the width |
| Swipe.OpacityBounded | chrome-extension/src/utils/swipeGestures.js:181 | the overlay opacity is a number in [0, 0.8] |
| Swipe.SwipeIff | chrome-extension/src/utils/swipeGestures.js:214-221 | a swipe is recognised exactly when the move reaches both the minimum distance and the threshold share of the width |
| Swipe.DefaultSwipeOnNarrowCard | chrome-extension/src/utils/swipeGestures.js:8-9 | with the defaults a 200-pixel card needs an 80-pixel drag either way |
| Toggle.StatusLabel | chrome-extension/src/services/toggle.js:72-78 | the status reads `ON` exactly when the switch is on, `OFF` otherwise |
| Toggle.StreamingRequest | chrome-extension/src/services/toggle.js:44 | the request goes to the streaming endpoint with one `on` parameter, the string form of the asked-for state |
| Toggle.ScreenshotToggle.constructor | chrome-extension/src/services/toggle.js:2-10 | a new switch is off, not active, not disabled, with no requests or pending restores |
| Toggle.ScreenshotToggle.LoadState | chrome-extension/src/services/toggle.js:17-24 | the state becomes the stored flag, false when none is stored; a failing read leaves it alone; nothing else changes |
| Toggle.ScreenshotToggle.SaveState | chrome-extension/src/services/toggle.js:26-34 | the stored flag becomes the state unless the write fails; nothing else changes |
| Toggle.ScreenshotToggle.UpdateUI | chrome-extension/src/services/toggle.js:70-80 | with both elements present the switch is active and labelled `ON` exactly when enabled; otherwise nothing changes |
| Toggle.ScreenshotToggle.Init | chrome-extension/src/services/toggle.js:12-15 | after loading, the shown label agrees with the loaded state; no request is made and nothing is stored |
| Toggle.ScreenshotToggle.SetDisabled | chrome-extension/src/services/toggle.js:82-97 | the disabled class and pulse follow the flag; disabling shows `...` at half opacity; re-enabling leaves the status text as it is |
| Toggle.ScreenshotToggle.ShowErrorRestoring | chrome-extension/src/services/toggle.js:99-122 | the status shows `ERR` in red at 0.8 opacity and the switch gets a red border, each with one pending reset |
| Toggle.ScreenshotToggle.ShowError | chrome-extension/src/services/toggle.js:99-111 | the text shown just before the error is the one queued to be put back |
| Toggle.ScreenshotToggle.OnStatusRestore | chrome-extension/src/services/toggle.js:106-110 | the oldest queued text comes back and the opacity and colour are cleared; the switch state is untouched |
| Toggle.ScreenshotToggle.OnBorderReset | chrome-extension/src/services/toggle.js:117-120 | the red border goes away and one pending reset is consumed; nothing else changes |
| Toggle.ScreenshotToggle.Attempt | chrome-extension/src/services/toggle.js:36-61 | exactly one request for the flipped state is sent; the state flips and is persisted exactly when the answer is ok |
| Toggle.ScreenshotToggle.Toggle | chrome-extension/src/services/toggle.js:36-68 | the state flips and is persisted exactly on an ok answer; a failure shows `ERR` and queues `...` to be restored |
| Toggle.FailedToggleShows | chrome-extension/src/services/toggle.js:41-64 | after a failed toggle from off, once the error times out the status reads `...` although the switch is still off |
| Toggle.ScreenshotToggle.ToggleRestoringLabel | chrome-extension/src/services/toggle.js:36-68 | as `toggle`, but the error display restores the label of the unchanged state |
| Toggle.FailedToggleRestoringLabelShows | chrome-extension/src/services/toggle.js:99-110 | the same failure with the corrected display: the status reads `OFF` again |
| Toggle.FailedToggleAgrees | chrome-extension/src/services/toggle.js:99-110 | after any failed corrected toggle and its restore, the shown label agrees with the unchanged state |
| Toggle.BoolString | chrome-extension/src/services/toggle.js:44 | the `on` query value is `true` exactly for the new state on, `false` otherwise |
| Calendar.FormatDateIsBasicForm | chrome-extension/src/utils/calendar.ts:26-28 | the formatter yields the instant's year, month, day, `T`, hour, minute and second, zero-padded and run together, then `Z` |
| Calendar.FormatDateForm | chrome-extension/src/utils/calendar.ts:58-60 | every formatted instant has the RFC 5545 UTC DATE-TIME form `YYYYMMDDTHHMMSSZ` |
| Calendar.GenerateGoogleCalendarUrl | chrome-extension/src/utils/calendar.ts:16-45 | the URL is produced exactly when both dates parse, and is the template base with the parameters built from the event |
| Calendar.CollectCalendarParams | chrome-extension/src/utils/calendar.ts:19-42 | the appended parameters are the title, the dates and the optional description, location and attendees, in that order |
| Calendar.CalendarParamsKeys | chrome-extension/src/utils/calendar.ts:29-42 | the keys are `text`, `dates`, then `details`, `location` and `add`, each of the last three only when its field is given |
| Calendar.CalendarParamsValues | chrome-extension/src/utils/calendar.ts:29-42 | each parameter reads back as the field it came from; `add` is the attendees joined by commas |
| Calendar.EscapeIcsTextIsPerChar | chrome-extension/src/utils/calendar.ts:110-117 | the chain of global replacements escapes each character on its own: backslash, `;`, `,` and LF are escaped and CR is dropped |
| Calendar.EscapedHasNoLineBreak | chrome-extension/src/utils/calendar.ts:110-117 | an escaped value never holds a raw CR or LF |
| Calendar.UnescapeEscape | chrome-extension/src/utils/calendar.ts:110-117 | reading an escaped value back gives the original text whenever it has no CR |
| Calendar.Uid | chrome-extension/src/utils/calendar.ts:55 | the event id starts with `tedai-` |
| Calendar.GenerateIcsContent | chrome-extension/src/utils/calendar.ts:50-105 | the file is produced exactly when both dates parse, and is the content lines joined by CRLF |
| Calendar.CollectIcsLines | chrome-extension/src/utils/calendar.ts:62-102 | the pushed lines are the header, the event's properties, the optional lines, one line per attendee, the optional alarm and the footer, in order |
| Calendar.IcsFrame | chrome-extension/src/utils/calendar.ts:62-75 | the calendar starts with the six fixed header lines, then UID, DTSTART, DTEND and SUMMARY, and ends by closing VEVENT and VCALENDAR |
| Calendar.IcsAttendees | chrome-extension/src/utils/calendar.ts:85-89 | the attendee lines are one `ATTENDEE:MAILTO:` line per attendee, in input order |
| Calendar.IcsAlarmIffReminder | chrome-extension/src/utils/calendar.ts:91-99 | an alarm is emitted exactly when the reminder is non-zero, and its trigger is that many minutes before the start |
| Calendar.IcsLinesLackCr | chrome-extension/src/utils/calendar.ts:62-102 | with CR-free attendees, id and dates, no content line holds a CR |
| Calendar.IcsContentSplits | chrome-extension/src/utils/calendar.ts:104 | splitting the file on CRLF gives back exactly its content lines |
| Calendar.SanitizeTitle | chrome-extension/src/utils/calendar.ts:130 | each letter or digit of the title is kept and every other character becomes `_` |
| Calendar.IcsFilenameShape | chrome-extension/src/utils/calendar.ts:130 | the download name is the sanitised title plus `.ics`, as long as the title plus four |
| Calendar.IsoString | chrome-extension/src/utils/calendar.ts:27 | the ISO text of an instant has 24 characters and ends in `Z` |
| Calendar.IsoSeconds | chrome-extension/src/utils/calendar.ts:27 | the part before the fractional seconds has 19 characters and no `.` |
| Calendar.EscapeIcsTextChar | chrome-extension/src/utils/calendar.ts:110-117 | escaping a single character gives that character's escape |
| Gmail.BuildComposeUrl | chrome-extension/src/utils/gmail.ts:9-27 | the compose URL is the Gmail compose base with the parameters built from the task |
| Gmail.ComposeParamsKeys | chrome-extension/src/utils/gmail.ts:14-24 | the parameters are `to`, `su` and `body`, then `cc` and `bcc` only when they are given |
| Gmail.ComposeParamsValues | chrome-extension/src/utils/gmail.ts:14-24 | each parameter reads back as the task field it was built from |
| Gmail.IsValidEmailIffPattern | chrome-extension/src/utils/gmail.ts:80-83 | the address check holds exactly when the trimmed address matches `^[^\s@]+@[^\s@]+\.[^\s@]+$` |
| Gmail.BlankIsInvalid | chrome-extension/src/utils/gmail.ts:80-83 | a blank address is never valid |
| Gmail.MessageInjective | chrome-extension/src/utils/gmail.ts:49-69 | different error kinds report different messages |
| Gmail.RecipientErrors | chrome-extension/src/utils/gmail.ts:49-53 | the recipient yields at most one error: required when blank, otherwise invalid when the check fails |
| Gmail.ValidateEmailTask | chrome-extension/src/utils/gmail.ts:46-75 | the result lists the messages of the task's errors and is valid exactly when there are none |
| Gmail.CollectErrors | chrome-extension/src/utils/gmail.ts:49-69 | the chain of conditional pushes yields the messages of the failed checks, in order |
| Gmail.EmailErrorsMembers | chrome-extension/src/utils/gmail.ts:49-69 | each error is reported exactly when its condition holds; CC and BCC are checked only when given |
| Gmail.ValidIffAllChecksPass | chrome-extension/src/utils/gmail.ts:71-74 | a task is valid exactly when the recipient is a valid address, subject and body are not blank, and each given CC and BCC is a valid address |
| Gmail.RecipientErrorsExclusive | chrome-extension/src/utils/gmail.ts:49-53 | at most one recipient error, and one exactly when the recipient is not a valid address |
| Gmail.EmailErrorsInOrder | chrome-extension/src/utils/gmail.ts:49-69 | errors come in the fixed order recipient, subject, body, CC, BCC, each at most once |
| Gmail.ShownSubject | chrome-extension/src/utils/gmail.ts:90-92 | a subject of at most 50 characters is shown whole; a longer one is cut to its first 50 characters plus `...` |
| Gmail.FormatEmailSummary | chrome-extension/src/utils/gmail.ts:88-95 | the summary starts with `To: <recipient> - ` and is at most 53 characters longer |
| Gmail.FormatEmailSummaryParts | chrome-extension/src/utils/gmail.ts:94 | after the recipient header the summary is exactly the shown subject |
| Gmail.ValidEmailMatches | chrome-extension/src/utils/gmail.ts:80-83 | whitespace-free text with an `@`, a non-empty local part and a dot with text on both sides after it matches the e-mail pattern |
| Gmail.MatchesValidEmail | chrome-extension/src/utils/gmail.ts:80-83 | conversely, every split `a@b.c` into clean parts is such a text, with the `@` first and a dot inside the domain |
| Gmail.ErrorsOfMembers | chrome-extension/src/utils/gmail.ts:46-70 | each error of the list is present exactly when its field fails its check |
| Gmail.ErrorsOfInOrder | chrome-extension/src/utils/gmail.ts:46-70 | the errors come in field order, at most five |
| ChatRoute.ValidateMessage | backend/src/routes/chat/index.ts:113-141 | a failure is a 400; a missing, non-string or empty message is "required"; an accepted message is the trimmed text, 1 to 4000 characters long |
| ChatRoute.ValidateMessageIff | backend/src/routes/chat/index.ts:123-141 | a string is accepted exactly when its trimmed text has 1 to 4000 characters; the blank error is for non-empty whitespace; longer text reports its trimmed length |
| ChatRoute.SendMessageCheck | backend/src/routes/chat/index.ts:113-150 | the message is judged before the session; a valid message to an unknown session is a 404; success needs both |
| ChatRoute.HistoryLimit | backend/src/routes/chat/index.ts:79 | the limit is the number read when it is non-zero, otherwise 50; it is never 0 |
| ChatRoute.LastMessageId | backend/src/routes/chat/index.ts:196 | the cursor is the number read, or 0 when there is none |
| ChatRoute.NewMessages | backend/src/routes/chat/index.ts:209 | the new messages are a sub-list of the history |
| ChatRoute.NewMessagesMembers | backend/src/routes/chat/index.ts:209-211 | the new messages are exactly the history's messages above the cursor; none exist exactly when every id is at most the cursor |
| ChatRoute.StartPoll | backend/src/routes/chat/index.ts:193-222 | an unknown session is refused; new messages past the cursor are answered at once; otherwise the poll waits with that cursor |
| ChatRoute.RequestIdParts | backend/src/routes/chat/index.ts:28-30 | a request id is `req`, the clock and the counter, joined by `_` |
| ChatRoute.RequestIdsDistinct | backend/src/routes/chat/index.ts:27-30 | ids made from different counter values differ, whatever the clock reads |
| ChatRoute.NotifyPartitions | backend/src/routes/chat/index.ts:293-308 | every notified waiter is exactly one of: dropped as ended, resolved, or kept waiting |
| ChatRoute.ResolutionsAnswer | backend/src/routes/chat/index.ts:300-303 | each resolution answers an open waiter of the list with exactly the messages past its cursor |
| ChatRoute.RemoveFirstSpec | backend/src/routes/chat/index.ts:331-335 | removal drops exactly the first waiter with the id and keeps the others in order; without one the list is unchanged |
| ChatRoute.PendingRequests.constructor | backend/src/routes/chat/index.ts:24-27 | the table starts empty with the counter at 0 |
| ChatRoute.PendingRequests.GenerateRequestId | backend/src/routes/chat/index.ts:28-30 | the counter goes up by one and the new id uses the new value; the table is unchanged |
| ChatRoute.PendingRequests.Add | backend/src/routes/chat/index.ts:240-263 | a new session gets a list and the waiter goes last; no session is kept with an empty list |
| ChatRoute.PendingRequests.Notify | backend/src/routes/chat/index.ts:285-322 | nothing happens without waiters; a failed read drops the session; otherwise ended and resolved waiters leave and an emptied list removes the session |
| ChatRoute.PendingRequests.Remove | backend/src/routes/chat/index.ts:327-340 | a missing session is left alone; otherwise the first waiter with the id goes and an emptied list removes the session |
| ChatRoute.PollResponse.constructor | backend/src/routes/chat/index.ts:221 | a new poll is unhandled and unanswered |
| ChatRoute.PollResponse.OnTimeout | backend/src/routes/chat/index.ts:224-238 | the first path to run answers with no messages and asks to unregister the waiter; later runs change nothing |
| ChatRoute.PollResponse.Resolve | backend/src/routes/chat/index.ts:250-261 | an unhandled poll is answered with the messages; a handled one is left as it was |
| ChatRoute.PollResponse.OnClose | backend/src/routes/chat/index.ts:266-271 | a disconnect unregisters an unhandled poll without answering it |
| ChatRoute.RunPoll | backend/src/routes/chat/index.ts:221-271 | in any order of timeout, resolutions and close, a poll is answered at most once and unregistered at most once, and the first event decides how |
| ChatRoute.ValidateString | backend/src/routes/chat/index.ts:114-141 | an empty string is refused as missing; any other string is judged by its trimmed text |
| ChatRoute.CheckTrimmedIff | backend/src/routes/chat/index.ts:123-141 | trimmed text is accepted exactly when it has 1 to 4000 characters; empty text is the blank error; longer text names its length |
| ChatRoute.FirstAnswer | backend/src/routes/chat/index.ts:221-271 | a poll answers at most once, and not at all exactly when the connection closes first |
| ConversationRoutes.UserIdOf | backend/src/chat/routes/index.ts:17 | the owner is the given user id when it is truthy, otherwise `default_user`; it is always truthy |
| ConversationRoutes.ParseConversationId | backend/src/chat/routes/index.ts:37-44 | the id is refused with 400 exactly when it does not read as a number, and is that number otherwise |
| ConversationRoutes.GetMessagesCheck | backend/src/chat/routes/index.ts:35-53 | a bad id is a 400, an unknown conversation a 404; success needs a number that names a known conversation |
| ConversationRoutes.SendMessageCheck | backend/src/chat/routes/index.ts:71-97 | a bad id is a 400, then missing or non-string content a 400, then an unknown conversation a 404; success yields the id and the content as given |
| ConversationRoutes.GetContextCheck | backend/src/chat/routes/index.ts:148-157 | only the id is checked; success needs it to read as a number |
| ConversationRoutes.SaveContextCheck | backend/src/chat/routes/index.ts:175-192 | a bad id is a 400, then a falsy key or value a 400; success needs both truthy |
| ConversationRoutes.ContextHistory | backend/src/chat/routes/index.ts:105-108 | the context is every stored message but the last, as role and content, in order |
| ConversationRoutes.ContextExcludesNewMessage | backend/src/chat/routes/index.ts:100-108 | with the just-saved message last, the assistant sees exactly the turns before it |
| ConversationRoutes.InvalidIdEverywhere | backend/src/chat/routes/index.ts:37-44 | a non-numeric id is refused with 400 by every conversation endpoint before anything else is looked at |
| ConversationRoutes.WhitespaceContentAccepted | backend/src/chat/routes/index.ts:83-88 | content made only of whitespace is accepted as it is |
| ConversationRoutes.TrailingTextIgnored | backend/src/chat/routes/index.ts:37 | an id such as `12abc` reads as 12 |
| VoiceRoute.Upload | backend/src/routes/voice/index.ts:11-24 | an upload reaches the handler exactly when its type starts with `audio/` and it is at most 10 MiB |
| VoiceRoute.StatusMessage | backend/src/routes/voice/index.ts:30-39 | the available message is shown exactly when the service is available, the unconfigured one otherwise |
| VoiceRoute.ErrorText | backend/src/routes/voice/index.ts:61 | an error's own message is reported when non-empty, otherwise the route's fallback |
| VoiceRoute.VoicesCheck | backend/src/routes/voice/index.ts:45-53 | the voices are listed exactly when the service is available, otherwise a 503 |
| VoiceRoute.TranscribeCheck | backend/src/routes/voice/index.ts:70-78 | a missing file is a 400; any uploaded file goes on |
| VoiceRoute.SpeakCheck | backend/src/routes/voice/index.ts:110-138 | availability is checked first (503), then a non-empty string (400), then not only whitespace (400); the text goes to speech untrimmed |
| VoiceRoute.SessionMessageCheck | backend/src/routes/voice/index.ts:157-185 | availability (503), then the file (400), then the session (404); success yields the file |
| VoiceRoute.ConversationFor | backend/src/routes/voice/index.ts:192-204 | the assistant gets the history as text turns, in order, followed by one audio turn |
| VoiceRoute.UserText | backend/src/routes/voice/index.ts:207-216 | the saved user text is the transcription, or `[Audio message]` when it failed |
| VoiceRoute.SessionLog.Save | backend/src/routes/voice/index.ts:216-219 | one message with the role and content is appended to the session |
| VoiceRoute.SessionLog.SaveExchange | backend/src/routes/voice/index.ts:215-219 | the user message is saved before the assistant's, and both are appended last |
| VoiceRoute.FilterIsCaseSensitive | backend/src/routes/voice/index.ts:18 | `audio/webm` passes the filter but `Audio/webm` and `video/webm` do not |
| VoiceRoute.UploadLimitExact | backend/src/routes/voice/index.ts:14 | the limit admits exactly 10485760 bytes; one more is refused |
| VoiceRoute.SessionLog.constructor | backend/src/routes/voice/index.ts:192-196 | the conversation starts as the stored history |
| MonitorRoute.QueryDimension | backend/src/routes/monitor/index.ts:19-20 | a dimension reaches the script exactly when the query value is present and reads as a non-zero number, and is that number |
| MonitorRoute.DimensionArg | backend/src/routes/monitor/index.ts:23-24 | a dimension contributes one argument exactly when it is usable, otherwise none |
| MonitorRoute.ScreenshotArgs | backend/src/routes/monitor/index.ts:22-24 | the arguments are the width's then the height's, in that order |
| MonitorRoute.ArgsReadBack | backend/src/routes/monitor/index.ts:19-24 | each argument reads back as the dimension it came from |
| MonitorRoute.ChunkingIrrelevant | backend/src/routes/monitor/index.ts:31-37 | the collected output does not depend on how the stream was cut into chunks |
| MonitorRoute.CollectOutput | backend/src/routes/monitor/index.ts:31-33 | the output is the chunks concatenated in order |
| MonitorRoute.CaptureResult | backend/src/routes/monitor/index.ts:39-96 | the capture goes on exactly on exit code 0, with the trimmed output path; otherwise a 500 with the script's stderr or the default message |
| MonitorRoute.SessionIdOf | backend/src/routes/monitor/index.ts:43 | the session is the given id when present, otherwise `default`; it is never empty |
| MonitorRoute.Basename | backend/src/routes/monitor/index.ts:60 | the stored name has no slash |
| MonitorRoute.BasenameOfFileInDirectory | backend/src/routes/monitor/index.ts:60 | the stored name of a file in a directory is the file's own name |
| MonitorRoute.BasenameOfPlainName | backend/src/routes/monitor/index.ts:60 | a name without a slash is its own stored name |
| MonitorRoute.SummaryContext | backend/src/routes/monitor/index.ts:46-52 | the summariser gets context exactly when there is a previous snapshot: its caption and changes with empty description and facts |
| MonitorRoute.SnapshotFor | backend/src/routes/monitor/index.ts:54-61 | the stored snapshot has the basename, the session, the summary's fields, and no changes when there is no previous snapshot |
| MonitorRoute.FirstSnapshotHasNoChanges | backend/src/routes/monitor/index.ts:54-57 | the first snapshot of a session records no changes whatever the summariser said |
| MonitorRoute.TaskDataOf | backend/src/routes/monitor/index.ts:81 | the stored task data is the given data when truthy, otherwise an empty object |
| MonitorRoute.TaskToCreate | backend/src/routes/monitor/index.ts:77-81 | a task is created exactly when both `shouldCreate` and `taskType` are truthy; a missing check result creates none |
| MonitorRoute.ProcessCapture | backend/src/routes/monitor/index.ts:41-94 | after exit code 0 the awaited calls run in order; the answer is a 500 "Failed to process screenshot" with the first rejection's message exactly when some call rejects, and later calls do not run; otherwise `{screenshot, summary, timelineUpdated: true}` with the snapshot and timeline rows written and the task, if any, requested |
| MonitorRoute.AnsweredSummaryIsStored | backend/src/routes/monitor/index.ts:54-91 | the summary answered is the one stored, with its changes emptied for a session's first snapshot |
| MonitorRoute.ResolveScreenshot | backend/src/routes/monitor/index.ts:144-147 | the resolved path is a clean absolute path |
| MonitorRoute.ServeScreenshotAsWritten | backend/src/routes/monitor/index.ts:141-158 | the request is refused exactly when the resolved path does not start with the directory's path as a string; then 404 when the file is missing; else the file is sent |
| MonitorRoute.ServeScreenshot | backend/src/routes/monitor/index.ts:141-158 | with the containment test corrected, exactly the paths outside the screenshots directory are refused |
| MonitorRoute.InsideIffPrefix | backend/src/routes/monitor/index.ts:150 | the corrected string test passes exactly for paths inside the directory, segment by segment |
| MonitorRoute.AsWrittenAdmitsInside | backend/src/routes/monitor/index.ts:150-158 | the written handler agrees with the corrected one on every path the corrected one admits |
| MonitorRoute.PlainNameInside | backend/src/routes/monitor/index.ts:144-150 | a plain file name resolves into the directory and neither handler refuses it |
| MonitorRoute.ParentRefused | backend/src/routes/monitor/index.ts:144-151 | `..` resolves to the project root and both handlers refuse it |
| MonitorRoute.SiblingDirectoryServed | backend/src/routes/monitor/index.ts:147-158 | `../screenshots_evil/x` resolves outside the directory, yet the written handler serves it; the corrected one refuses it |
| MonitorRoute.Normalize | backend/src/routes/monitor/index.ts:147 | resolving segments leaves a clean path: no empty, `.` or `..` segment |
| MonitorRoute.ScreenshotsDir | backend/src/routes/monitor/index.ts:148 | the screenshots directory is a clean, non-root path |
| MonitorRoute.LastSegment | backend/src/routes/monitor/index.ts:60 | the last segment is a suffix of the path without `/` |
| MonitorRoute.SiblingResolves | backend/src/routes/monitor/index.ts:144-147 | `../screenshots_evil/x` resolves to the sibling directory `screenshots_evil` |
| MonitorRoute.SiblingSharesPrefix | backend/src/routes/monitor/index.ts:148-150 | that path lies outside the screenshots directory, yet its text starts with the directory's text |
| Retry.Nullish | backend/src/services/retry.ts:13-14 | only a missing option takes the default; a given 0 is kept |
| Retry.Waits | backend/src/services/retry.ts:21 | the wait after failure `i` is `delayMs * i` |
| Retry.WithRetry | backend/src/services/retry.ts:9-26 | the first success is returned after exactly that many calls; after `maxRetries` failures the last error is rethrown; waits come only between attempts; with no attempts allowed it throws `Retry exhausted` without calling |
| Retry.TotalWait | backend/src/services/retry.ts:16-23 | the waits before the `k`-th retry add up to `delayMs * k * (k + 1) / 2` |
| Retry.DefaultsAfterThreeFailures | backend/src/services/retry.ts:1-21 | with the defaults, three failures wait 1000 ms then 2000 ms and the third error is thrown |
| Retry.ZeroRetriesNeverCalls | backend/src/services/retry.ts:13-25 | an explicit `maxRetries` of 0 never calls the operation and throws `Retry exhausted` |
| ToolTypes.DefinitionOf | backend/src/services/tools/index.ts:53-57 | a definition carries the tool's name, description and parameters |
| ToolTypes.CompactMembers | backend/src/services/tools/createCalendarEvent.ts:97-106 | `filter(Boolean)` keeps exactly the lines that are present and not empty |
| ToolTypes.CompactFramed | backend/src/services/tools/createCalendarEvent.ts:97-106 | the empty separator line before the closing sentence is dropped, and the optional lines are filtered on their own |
| ToolTypes.CompactKeeps | backend/src/services/tools/createCalendarEvent.ts:106 | a present, non-empty line survives the filter in its place |
| ToolTypes.CompactDrops | backend/src/services/tools/createCalendarEvent.ts:106 | a missing or empty line leaves no trace |
| ToolTypes.LineIf | backend/src/services/tools/createCalendarEvent.ts:101-103 | a conditional line is present exactly when its condition holds, with its text |
| ToolTypes.EntryIf | backend/src/services/tools/createCalendarEvent.ts:70-72 | a conditional spread adds one entry exactly when the value is truthy, under its key |
| ToolRegistry.Registry.constructor | backend/src/services/tools/index.ts:33 | the registry starts empty |
| ToolRegistry.Registry.Register | backend/src/services/tools/index.ts:36-38 | the name maps to the new tool; a new name goes last and a known one keeps its place |
| ToolRegistry.Registry.Initialize | backend/src/services/tools/index.ts:41-49 | the snapshot lookup, the email draft and the calendar event are registered under their names; other tools stay as they were |
| ToolRegistry.Registry.Definitions | backend/src/services/tools/index.ts:52-58 | one definition per registered tool, in registration order |
| ToolRegistry.Registry.TaskCreationDefinitions | backend/src/services/tools/index.ts:61-69 | exactly the definitions of registered `create_email` and `create_calendar_event` tools, in registration order |
| ToolRegistry.Registry.GetTool | backend/src/services/tools/index.ts:81-83 | a tool is returned exactly when its name is registered, and it is the registered tool |
| ToolRegistry.Registry.Execute | backend/src/services/tools/index.ts:72-78 | a registered tool runs; an unknown name throws `Tool "<name>" not found` |
| ToolRegistry.InitializedRegistry | backend/src/services/tools/index.ts:41-78 | after initialisation there are three definitions in order, two of them task-creating, and calling `send_email` throws |
| CreateCalendarEvent.EventData | backend/src/services/tools/createCalendarEvent.ts:66-73 | the task data starts with title, start and end as given, and ends with the attendees when there are any |
| CreateCalendarEvent.Validate | backend/src/services/tools/createCalendarEvent.ts:48-63 | missing fields come first, then an unreadable date, then an end not after the start; an input passes exactly when all three hold |
| CreateCalendarEvent.Execute | backend/src/services/tools/createCalendarEvent.ts:44-113 | it never rejects; a failed check answers with its message and writes nothing; a failed write answers with its error; a written task always has its start before its end |
| CreateCalendarEvent.ConfirmationShape | backend/src/services/tools/createCalendarEvent.ts:97-106 | the confirmation is the header, title and time lines, the optional lines that are given, and the closing sentence; the empty separator is dropped |
| CreateCalendarEvent.OptionalShape | backend/src/services/tools/createCalendarEvent.ts:101-103 | the location, attendees and description lines appear exactly when their fields are given |
| CreateCalendarEvent.ZeroLengthRefused | backend/src/services/tools/createCalendarEvent.ts:61-63 | an event that ends when it starts is refused before anything is written |
| SendEmail.EmailData | backend/src/services/tools/sendEmail.ts:47-53 | the task data is to, subject and body as given, then `cc` and `bcc` only when truthy |
| SendEmail.Execute | backend/src/services/tools/sendEmail.ts:37-77 | it never rejects; missing fields answer before any write; a task is written exactly when the fields are present and the write succeeds |
| SendEmail.ConfirmationShape | backend/src/services/tools/sendEmail.ts:62-70 | the confirmation is the header, recipient and subject lines, the CC and BCC lines when given, and the closing sentence; the empty separator is dropped |
| CreateEmail.TaskData | backend/src/services/tools/createEmail.ts:34 | the stored data is to, subject and body, in that order, as given |
| CreateEmail.Execute | backend/src/services/tools/createEmail.ts:25-56 | missing fields answer before any insert; a failed insert rejects exactly then and writes nothing; otherwise one pending email row and the success message |
| CreateEmail.SuccessNamesRecipientAndSubject | backend/src/services/tools/createEmail.ts:48 | the success message names the recipient and the subject as given |
| SnapshotContext.Closest | backend/src/services/tools/getSnapshotContext.ts:43-45 | the chosen row is eligible and no eligible row is nearer the target; there is none exactly when no row is eligible |
| SnapshotContext.ClosestDistanceIgnoresOrder | backend/src/services/tools/getSnapshotContext.ts:44-45 | the table's order decides only among equally near rows: a rearranged table yields a row just as near |
| SnapshotContext.JsonOrEmpty | backend/src/services/tools/getSnapshotContext.ts:86-87 | a missing or empty JSON field reads as the empty list, otherwise as stored |
| SnapshotContext.ContextOf | backend/src/services/tools/getSnapshotContext.ts:89-96 | the answer carries the row's caption, description, changes, facts, path and creation time |
| SnapshotContext.Execute | backend/src/services/tools/getSnapshotContext.ts:18-105 | no session, then a badly shaped timestamp, then a failed query each give their message; a snapshot is found exactly when some row of any session lies within five minutes, and it is the nearest; otherwise the nearest snapshot anywhere is named when there is one |
| SnapshotContextAdd.ExecuteWith | backend/src/services/tools/add.ts:17-79 | no session, then an unreadable timestamp, then a failed query each give their message; a found snapshot is of the session, passes the window test and is nearest among those that pass |
| SnapshotContextAdd.Execute | backend/src/services/tools/add.ts:33-57 | with the window measured between instants, a snapshot is found exactly when one of the session lies within five minutes either way |
| SnapshotContextAdd.WindowInclusive | backend/src/services/tools/add.ts:34-36 | both ends of the five-minute window are included |
| SnapshotContextAdd.SameDayBelowLowerBound | backend/src/services/tools/add.ts:42-45 | a stored `YYYY-MM-DD HH:MM:SS` text sorts below the ISO lower bound of the same day, although the instants are within the window |
| SnapshotContextAdd.SameInstantMissed | backend/src/services/tools/add.ts:42-56 | as written, a snapshot stored at the very instant asked for is not found; with the window by instants it is |
| LocalTime.NumberAt | backend/src/utils/index.ts:23-24 | a missing piece of a split reads as `NaN`; a present one made of digits with an optional leading `-` reads as that integer, anything else as `NaN` |
| LocalTime.ParseLocal | backend/src/utils/index.ts:21-27 | the parse succeeds only when the text has a time part after a space |
| LocalTime.Pad2Number | backend/src/utils/index.ts:10-14 | a field padded to two digits reads back as its number |
| LocalTime.ParseFormatRoundTrip | backend/src/utils/index.ts:7-27 | parsing a rendered local date gives back its year, month, day, hour, minute and second |
| LocalTime.FormatHasTimestampShape | backend/src/utils/index.ts:7-15 | a rendered real date has the 19-character shape the snapshot lookup checks |
| LocalTime.InvalidRenderingRefused | backend/src/utils/index.ts:7-15 | an invalid date renders as `NaN` fields, which the snapshot lookup refuses |
| SnapshotContext.Distance | backend/src/services/tools/getSnapshotContext.ts:43-44 | the distance is the absolute difference of the two instants in seconds |
| Config.ModelsOf | backend/src/services/config.ts:5-7 | each model is its variable when set and non-empty, otherwise its default; none is empty |
| Config.ExtractModelName | backend/src/services/config.ts:9-18 | an `ollama/` name loses that prefix; any other name loses its first `google/`, wherever it stands, and is unchanged without one |
| Config.ExtractUndoesPrefix | backend/src/services/config.ts:13-18 | extracting from a name with either provider prefix gives the name back |
| Config.DefaultsAreHosted | backend/src/services/config.ts:5-18 | the default models are not Ollama models and name `gemini-2.5-pro` and `gemini-2.5-flash` |
| VoiceService.ExtensionFromMimeType | backend/src/services/voice.ts:138-145 | the extension is the first of `webm`, `ogg`, `mp3`, `wav`, `mp4` the type contains, and `webm` when it contains none |
| VoiceService.OggExtension | backend/src/services/voice.ts:140 | `audio/ogg` is recognised as `ogg` |
| VoiceService.MpegFallsBackToWebm | backend/src/services/voice.ts:138-145 | `audio/mpeg` contains no known extension and is saved as `webm` |
| VoiceService.PathWithHomebrew | backend/src/services/voice.ts:55-58 | the script's `PATH` always mentions the Homebrew directory; a `PATH` that already does is kept as it is, otherwise the directory goes in front |
| VoiceService.PathWithHomebrewIdempotent | backend/src/services/voice.ts:56-58 | adding the directory a second time changes nothing |
| VoiceService.ScriptResult | backend/src/services/voice.ts:50-95 | the script resolves exactly when it exits with 0 and prints JSON, to the parsed output; a failed start, a non-zero exit and unparsable output each reject with their own message |
| VoiceService.ReplyError | backend/src/services/voice.ts:116-175 | a failed reply reports its own error when truthy, otherwise the fallback |
| VoiceService.TtsArguments | backend/src/services/voice.ts:161-172 | the speech script gets the text, the output path, then rate, volume and voice, each from its variable or its default |
| VoiceService.AudioFileName | backend/src/services/voice.ts:107 | a recording's file name starts with `audio_` |
| VoiceService.SpeechFileName | backend/src/services/voice.ts:157 | a speech file's name starts with `tts_` |
| VoiceService.SpeechService.constructor | backend/src/services/voice.ts:19 | the service starts unavailable |
| VoiceService.SpeechService.CheckServiceAvailability | backend/src/services/voice.ts:21-42 | available exactly when the environment exists and the temporary directory exists or is made; a missing environment leaves the flag untouched |
| VoiceService.SpeechService.IsVoiceServiceAvailable | backend/src/services/voice.ts:199-201 | it answers the availability flag |
| VoiceService.SpeechService.TranscribeAudio | backend/src/services/voice.ts:100-133 | unavailable throws before any file is written; otherwise the recording's file is removed whatever happens, a failure carries the `Failed to transcribe audio: ` prefix, and success returns the script's text |
| VoiceService.SpeechService.TextToSpeech | backend/src/services/voice.ts:150-194 | unavailable throws before running anything; otherwise the script gets the arguments above, the speech file is read and removed after a successful reply, and a failure carries the `Failed to generate speech: ` prefix |
| VoiceService.SpeechService.GetAvailableVoices | backend/src/services/voice.ts:206-218 | unavailable throws; otherwise it resolves exactly when the script does, to its output, with no `success` check |
| Streaming.NextDelay | backend/src/services/streaming.ts:39-49 | after a stored capture the next one starts 15 s after this one began, or at once when that has passed; after a failure it waits 15 s |
| Streaming.Cancel | backend/src/services/streaming.ts:63 | clearing a timer removes exactly the timers with that handle |
| Streaming.StreamingService.constructor | backend/src/services/streaming.ts:6-7 | the service starts stopped with nothing scheduled or running |
| Streaming.StreamingService.IsActive | backend/src/services/streaming.ts:68-70 | it answers the streaming flag |
| Streaming.StreamingService.Start | backend/src/services/streaming.ts:53-58 | starting while streaming does nothing; otherwise the flag is set and one capture starts at once |
| Streaming.StreamingService.Stop | backend/src/services/streaming.ts:60-66 | the flag is cleared and only the timer the handle names is cancelled |
| Streaming.StreamingService.OnTimerFired | backend/src/services/streaming.ts:43-48 | a fired timer leaves the pending list and starts one capture; the handle is left as it was |
| Streaming.StreamingService.OnCaptureDone | backend/src/services/streaming.ts:9-51 | a stored capture records its trimmed path; only while streaming is the next capture scheduled, with the delay above, and its handle replaces the old one |
| Streaming.StreamingService.Record | backend/src/services/streaming.ts:35-37 | the stored paths grow by the capture's path |
| Streaming.StreamingService.Schedule | backend/src/services/streaming.ts:43 | one timer with the delay is added and its fresh handle becomes the one kept |
| Streaming.CancelKeepsOrder | backend/src/services/streaming.ts:60-66 | clearing a timer keeps the remaining handles distinct |
| Streaming.StopClearsSingleLoop | backend/src/services/streaming.ts:60-66 | with one loop running, stopping leaves nothing scheduled |
| Streaming.StreamingRequest | backend/src/routes/monitor/index.ts:104-118 | streaming is active afterwards exactly when `on` is `true`, and the status says which |
| Streaming.RestartDuringCapture | backend/src/services/streaming.ts:53-66 | stopping and restarting while a capture runs leaves two captures in flight, each of which reschedules itself |
| Scenarios.EmailIdsDistinct | backend/src/data/mockScenarios.ts:17-46 | no id occurs twice in the email table |
| Scenarios.CalendarIdsDistinct | backend/src/data/mockScenarios.ts:48-77 | no id occurs twice in the calendar table |
| Scenarios.CalendarScenariosHaveAttendees | backend/src/data/mockScenarios.ts:48-77 | every calendar scenario invites at least one attendee |
| Scenarios.FirstWithId | backend/src/data/mockScenarios.ts:89-95 | `find` yields the first entry with the id, and nothing exactly when no entry has it |
| Scenarios.GetEmailScenarioById | backend/src/data/mockScenarios.ts:89-91 | the result is a table scenario with the id; `undefined` exactly when no scenario has it |
| Scenarios.GetCalendarScenarioById | backend/src/data/mockScenarios.ts:93-95 | the result is a table scenario with the id; `undefined` exactly when no scenario has it |
| Scenarios.EmailScenarioFoundById | backend/src/data/mockScenarios.ts:89-91 | every scenario of the email table is found by its own id |
| Scenarios.CalendarScenarioFoundById | backend/src/data/mockScenarios.ts:93-95 | every scenario of the calendar table is found by its own id |
| Scenarios.RandomIndex | backend/src/data/mockScenarios.ts:79-86 | `Math.floor(random * length)` is an index of the table for every `random` in [0, 1) |
| Scenarios.GetRandomEmailScenario | backend/src/data/mockScenarios.ts:79-82 | the pick is always a scenario of the email table |
| Scenarios.GetRandomCalendarScenario | backend/src/data/mockScenarios.ts:84-87 | the pick is always a scenario of the calendar table, so it has attendees |
| Scenarios.RandomPickQuarters | backend/src/data/mockScenarios.ts:79-82 | each email scenario is picked for a quarter of the random range |
| ScreenshotDiff.PixelMatches | backend/screen_monitor/get_screenshot_diff.py:33 | two pixels agree in at most three channels, and in three exactly when equal |
| ScreenshotDiff.EqualChannels | backend/screen_monitor/get_screenshot_diff.py:33 | the count of agreeing channel values is at most three per pixel |
| ScreenshotDiff.EqualChannelsSelf | backend/screen_monitor/get_screenshot_diff.py:33 | an image agrees with itself in every channel |
| ScreenshotDiff.EqualChannelsNone | backend/screen_monitor/get_screenshot_diff.py:33 | pixels that differ in every channel share no channel value |
| ScreenshotDiff.Truncate | backend/screen_monitor/get_screenshot_diff.py:37 | `int()` truncates toward zero |
| ScreenshotDiff.PrintedPercent | backend/screen_monitor/get_screenshot_diff.py:33-37 | the printed percentage is `(300·total − 100·equal) div (3·total)` and lies in [0, 100] |
| ScreenshotDiff.Diff | backend/screen_monitor/get_screenshot_diff.py:11-41 | a result is in [0, 100] and exists only when both images were obtained and the reference has pixels |
| ScreenshotDiff.Script | backend/screen_monitor/get_screenshot_diff.py:39-48 | a missing argument or any failure prints `0` and exits with 1; otherwise the percentage is printed and the exit is normal |
| ScreenshotDiff.ComparesResizedCapture | backend/screen_monitor/get_screenshot_diff.py:25-26 | a capture of another size is compared after being resized to the reference's size |
| ScreenshotDiff.IdenticalImagesDifferByZero | backend/screen_monitor/get_screenshot_diff.py:33-37 | a screen identical to the reference prints 0 |
| ScreenshotDiff.DisjointImagesDifferByHundred | backend/screen_monitor/get_screenshot_diff.py:33-37 | a screen differing in every channel prints 100 |
| ScreenshotDiff.OneChannelCountsTwoThirds | backend/screen_monitor/get_screenshot_diff.py:33-37 | counting is per channel: one pixel differing in one channel prints 33, not 100 |
| ScreenshotDiff.EmptyReferenceFails | backend/screen_monitor/get_screenshot_diff.py:34-41 | an empty reference image makes the script fail instead of printing a percentage |
| Timeline.AxisPosition | frontend/components/timeline-monitor.tsx:56-59 | the earliest time sits at 0, the latest at 100, and any time between them within [0, 100] |
| Timeline.TimePosition | frontend/components/timeline-monitor.tsx:48-60 | 0 with no snapshots, 50 with one snapshot or a zero range, otherwise the place between the earliest and the latest time |
| Timeline.TimePositionInRange | chat-frontend/src/components/TimelineMonitor.tsx:43-56 | every snapshot's own time is placed within [0, 100] |
| Timeline.TimePositionEnds | frontend/components/timeline-monitor.tsx:48-60 | with a spread of times the earliest snapshot sits at 0 and the latest at 100 |
| Timeline.TimePositionMonotone | frontend/components/timeline-monitor.tsx:48-60 | a later snapshot never sits to the left of an earlier one |
| Timeline.ScreenshotFilename | frontend/components/timeline-monitor.tsx:86-88 | the shown name is the whole path, or a non-empty name without a slash |
| Timeline.FilenameOfFileInDirectory | v0-app/components/timeline-monitor.tsx:84-86 | a file inside a directory is shown by its own name |
| Timeline.FilenameOfPlainName | chat-frontend/src/components/TimelineMonitor.tsx:68-70 | a name without a slash is shown as it is |
| Timeline.FilenameOfDirectoryPath | frontend/components/timeline-monitor.tsx:86-88 | a path ending in a slash is shown whole |
| Timeline.Selected | frontend/components/timeline-monitor.tsx:84 | the shown snapshot is the one at the selected index, none without a selection |
| Timeline.SelectedIffIndex | chat-frontend/src/components/TimelineMonitor.tsx:66 | for an index within the list, a snapshot is shown exactly when an index is selected |
| Timeline.PrevIndex | frontend/components/timeline-monitor.tsx:143 | from the first snapshot the previous button goes to the last, otherwise one back |
| Timeline.NextIndex | v0-app/components/timeline-monitor.tsx:143 | with no selection the next button goes to the first snapshot, otherwise one on, wrapping from the last to the first |
| Timeline.PrevNextInverse | frontend/components/timeline-monitor.tsx:143-150 | the two buttons undo each other on every index of a non-empty list |
| Timeline.NextWraps | v0-app/components/timeline-monitor.tsx:136-143 | up to `n` presses of next from an index wrap around at most once |
| Timeline.NextCycles | frontend/components/timeline-monitor.tsx:150 | `n` presses of next come back to where they started |
| Timeline.PointTop | chat-frontend/src/components/TimelineMonitor.tsx:80-85 | even points sit at 10px and odd points at 60px |
| Timeline.PointsAlternate | chat-frontend/src/components/TimelineMonitor.tsx:80-85 | neighbouring points never share a row |
| Timeline.TimelineMonitor.constructor | frontend/components/timeline-monitor.tsx:16-19 | the monitor starts loading, with no snapshots, no selection and no error |
| Timeline.TimelineMonitor.LoadTimeline | chat-frontend/src/components/TimelineMonitor.tsx:24-34 | new data replaces the list and clears the error; a failure keeps the list and records its message unless the policy suppresses it; loading ends either way |
| Timeline.TimelineMonitor.Select | frontend/components/timeline-monitor.tsx:107 | clicking a point selects that snapshot |
| Timeline.TimelineMonitor.Previous | frontend/components/timeline-monitor.tsx:143 | the selection moves to the previous index and a snapshot stays shown |
| Timeline.TimelineMonitor.Next | frontend/components/timeline-monitor.tsx:150 | the selection moves to the next index and a snapshot stays shown |
| Timeline.TimelineMonitor.Render | frontend/components/timeline-monitor.tsx:63-84 | the spinner exactly while loading with nothing to show; the error, with its message, exactly after loading with an error and nothing to show; otherwise the timeline with the selected snapshot |
| Timeline.CodePolicyExamples | chat-frontend/src/components/TimelineMonitor.tsx:28 | the Vite front end stays quiet on a refused connection and reports a timeout |
| Timeline.MessagePolicyExample | frontend/components/timeline-monitor.tsx:33 | a `Network Error` is suppressed by the message policy |
| Timeline.JsRemainder | frontend/components/timeline-monitor.tsx:150 | JavaScript's `%` agrees with the mathematical remainder on non-negative operands and stays strictly between -n and n |
| ChatClient.InitialCursor | chat-frontend/src/components/ChatInterface.tsx:49-51 | polling starts after 0 for an empty history, otherwise after the largest loaded id |
| ChatClient.Merge | chat-frontend/src/components/ChatInterface.tsx:57-62 | the shown messages stay first, in place |
| ChatClient.MergeAppendsUnseen | chat-frontend/src/components/ChatInterface.tsx:59-61 | a message is appended exactly when it arrived and its id is not among the shown ones |
| ChatClient.MergeKeepsShownIds | chat-frontend/src/components/ChatInterface.tsx:59-61 | no appended message repeats a shown id, and the shown ids grow by exactly the appended ones |
| ChatClient.MergeIdempotent | chat-frontend/src/components/ChatInterface.tsx:57-62 | delivering the same batch twice adds nothing the second time |
| ChatClient.MergeKeepsDuplicatesWithinBatch | chat-frontend/src/components/ChatInterface.tsx:59-60 | two copies of one new message in a single batch are both appended, since only shown ids are checked |
| ChatClient.DecodeAudio | chat-frontend/src/components/ChatInterface.tsx:142-146 | the byte array has one slot per character, holding its code modulo 256 |
| ChatClient.DecodedBytesAreCharCodes | chat-frontend/src/components/ChatInterface.tsx:142-146 | for decoded base64 text, whose codes are below 256, every byte is the character's code |
| ChatClient.VoiceButtonAction | chat-frontend/src/components/ChatInterface.tsx:125-164 | recording stops and sends, otherwise speech is interrupted, otherwise recording starts, each in exactly its state |
| ChatClient.ChatScreen.constructor | chat-frontend/src/components/ChatInterface.tsx:14-19 | the screen starts empty, not loading, without error, in its initial load and out of voice mode |
| ChatClient.ChatScreen.LoadMessages | chat-frontend/src/components/ChatInterface.tsx:41-74 | loaded history replaces the list, clears the error and starts polling after the largest id; a failure keeps the list and reports it; the initial load ends either way |
| ChatClient.ChatScreen.ReceiveMessages | chat-frontend/src/components/ChatInterface.tsx:56-62 | a polled batch is merged into the list |
| ChatClient.ChatScreen.BeginSend | chat-frontend/src/components/ChatInterface.tsx:86-92 | blank input or a send in progress changes nothing; otherwise the trimmed text is sent, the input cleared, loading started and the error cleared |
| ChatClient.ChatScreen.FinishSend | chat-frontend/src/components/ChatInterface.tsx:94-104 | a failure restores the sent text and reports it; loading ends either way |
| ChatClient.ChatScreen.HandleVoiceToggle | chat-frontend/src/components/ChatInterface.tsx:114-123 | a refused microphone permission changes nothing; otherwise the mode follows the switch and the error clears |
| ChatClient.ChatScreen.RecordingStopped | chat-frontend/src/components/ChatInterface.tsx:128-135 | the recording is sent exactly when there is audio; without it the failure is reported |
| ChatClient.ChatScreen.VoiceReplyReceived | chat-frontend/src/components/ChatInterface.tsx:137-156 | a reply's audio is decoded into bytes, each the character's code modulo 256, and handed to playback with loading still on and the error as it was; a failed reply reports its message or the default and ends loading |
| ChatClient.PlaybackFailure | chat-frontend/src/hooks/useVoiceMode.ts:204-230 | audio that played reports nothing; an element error reports "Audio playback error"; a rejected `play()` reports its own message, or the default when that is empty |
| ChatClient.ChatScreen.PlaybackSettled | chat-frontend/src/components/ChatInterface.tsx:150-156 | once playback settles loading ends; a failed playback becomes the error shown, a finished one leaves the error alone |
| ChatPanel.Normalize | frontend/components/chat-interface.tsx:57-60 | a shown message is the stored one with its id written in decimal |
| ChatPanel.NormalizeAll | frontend/components/chat-interface.tsx:56-61 | every message is normalised, in order |
| ChatPanel.Merge | frontend/components/chat-interface.tsx:66-76 | the shown messages stay first, in place |
| ChatPanel.MergeKeepsNormalised | frontend/components/chat-interface.tsx:66-76 | merging into normalised messages keeps every shown id the decimal form of a number |
| ChatPanel.SeenByStringIffSeenById | frontend/components/chat-interface.tsx:67-68 | comparing decimal ids decides the same as comparing the numbers |
| ChatPanel.MergeMatchesNumericMerge | frontend/components/chat-interface.tsx:65-76 | the string-keyed merge shows the same messages as the numeric merge of the Vite screen, normalised |
| ChatPanel.VoiceButtonAction | frontend/components/chat-interface.tsx:131-173 | without a session the button does nothing; otherwise it acts as on the Vite screen |
| ChatPanel.ChatPanelScreen.constructor | frontend/components/chat-interface.tsx:20-25 | the screen starts empty, not loading, out of voice mode, in its initial load, with no toasts |
| ChatPanel.ChatPanelScreen.LoadMessages | frontend/components/chat-interface.tsx:49-97 | without a ready session nothing happens; loaded history replaces the list, normalised, and polling starts after the largest id; a failure keeps the list and shows a toast |
| ChatPanel.ChatPanelScreen.ReceiveMessages | frontend/components/chat-interface.tsx:65-77 | a polled batch is merged into the list, which stays normalised |
| ChatPanel.ChatPanelScreen.BeginSend | frontend/components/chat-interface.tsx:99-104 | blank input, a send in progress or no session changes nothing; otherwise the trimmed text is sent, the input cleared and loading started |
| ChatPanel.ChatPanelScreen.FinishSend | frontend/components/chat-interface.tsx:106-118 | a failure restores the sent text and shows a toast; loading ends either way |
| ChatPanel.ChatPanelScreen.HandleVoiceToggle | frontend/components/chat-interface.tsx:121-129 | a refused microphone permission changes nothing; otherwise the mode follows the switch |
| ChatPanel.ChatPanelScreen.RecordingStopped | frontend/components/chat-interface.tsx:135-145 | the recording is sent exactly when there is audio; without it a toast is shown |
| ChatPanel.ChatPanelScreen.VoiceReplyReceived | frontend/components/chat-interface.tsx:147-167 | a reply's audio is decoded into bytes, each the character's code modulo 256, and handed to playback with loading still on and no toast; a failed reply shows a toast with its message or the default and ends loading |
| ChatPanel.ChatPanelScreen.PlaybackSettled | frontend/components/chat-interface.tsx:157-167 | once playback settles loading ends; a failed playback shows an error toast with the playback failure's message, a finished one shows none |

## Left out

- Network, database, LLM and process calls are not executed. These are `fetch`/axios, sqlite queries, the Gemini and Ollama wrappers, and the Python speech and capture scripts. Each appears only as the outcome it hands back, passed in as a parameter.
- `createTask` is imported by the tools from `backend/src/services/db.ts` but is not defined there. The task a tool creates is modelled as the record it would write.
- Chrome APIs are events. Tabs, alarms, badges and runtime messaging are modelled as an outbox of messages sent and calls for the answers and alarms that arrive. `chrome.storage.local` is a sequence field.
- `GmailUtils.openComposeWindow`, `openGoogleCalendar` and `downloadIcsFile` open tabs or create a download link. Only the URL, the file content and the file name they use are modelled.
- JavaScript timers are not run. `setTimeout`, `setInterval` and `requestAnimationFrame` callbacks are pending events delivered by method calls. The animation frame in the swipe handler is taken as immediate.
- Long polling is a sequential event model over the waiter table. The 30-second timer, the request's close event and new messages are events, so concurrency between requests is not modelled.
- The front ends' polling loops and two-second reloads are left out. So are `useVoiceMode`'s MediaRecorder and AudioContext plumbing and audio playback. Recording, permission and playback outcomes are parameters.
- `atob` and URL encoding are not re-verified. The decoded base64 text and the parameter lists are given as values.
- `Date` parsing, time zones and `toISOString()` belong to the environment. Instants are integer milliseconds. The ISO text of an instant and the local fields of a time are parameters or a field record.
- IEEE double arithmetic is not modelled. Ratios, opacity, timeline percentages and the screen-difference share are exact reals. The one place where a division by zero matters, a zero element width in the swipe handler, has its infinite and NaN values written out.
- Image decoding, screen capture and resizing in `get_screenshot_diff.py` belong to the imaging library. The resized capture is a parameter, and the counting is modelled over integer RGB pixels.
- The tool registry in `backend/src/services/tools/index.ts` contains an unresolved merge conflict. It is modelled with the branch that registers `create_email`, the branch its task-creation filter expects. `sendEmail.ts` is modelled on its own.
- `streaming.ts` stores a capture with three arguments against a six-parameter database function. Only the scheduling flag, the delay and the stored paths are modelled.
- ProcessCapture: when both calls under `Promise.all` reject, the message taken is the timeline generator's, whereas `Promise.all` reports whichever rejected first. Timing is not modelled.
- `checkAndGenerateTask` returns nothing, so the monitor route's task-creation branch never runs. `MonitorRoute.CreatesTask` states only the guard.
- `textToSpeech` in `backend/src/services/voice.ts` unlinks its temporary file only on the success path. Its `finally` sits inside that path, so a file left by a failed reply stays. `VoiceService.SpeechService.TextToSpeech` follows that code, not the description that the file is always removed.
- Toasts: `toasts` records every toast sent towards the active tab. The source sends it only when a current active tab exists, and that condition is not modelled.
- The iCalendar output has no 75-octet line folding (RFC 5545 section 3.1) and no DTSTAMP property (RFC 5545 section 3.6.1), because the generator emits neither.
- `generateTaskId`'s time and random suffix are parameters, and so are `Date.now()` and `Math.random()` wherever the source calls them.
- ShownSubject: the 50-character cut counts Unicode code points, while `substring` counts UTF-16 code units. The two differ only for a subject with characters outside the Basic Multilingual Plane, such as emoji.
- ValidateMessage: the 4000-character limit and the "(received N)" count are code points, while `length` counts UTF-16 code units. A message with characters outside the Basic Multilingual Plane can be accepted here and rejected by the route.
- SanitizeTitle: maps each Unicode code point, while the regular expression without the `u` flag replaces each UTF-16 code unit, so a character outside the Basic Multilingual Plane becomes one `_` here and two in the extension. IcsFilenameShape counts the file name's length in code points for the same reason.
- NumberAt: reads only decimal digits with an optional leading `-`. `Number` also accepts surrounding blanks, `+`, fractions, exponents and hexadecimal, but its only caller applies it after the timestamp pattern in `backend/src/services/tools/getSnapshotContext.ts`, which lets through only digits, `-`, `:` and one blank.
- Timeline.NextIndex: requires a non-empty list, because the next button exists only while a snapshot of the list is shown; with no snapshots, JavaScript's `% 0` would give NaN.
- Timeline.TimelineMonitor.Previous: requires a selected snapshot, because the previous and next buttons are rendered only in the detail view of one. Timeline.TimelineMonitor.Next has the same requirement for the same reason.
- The chat-frontend timeline has no previous/next buttons, so its model has no index navigation.
- JSX layout, CSS and styling are left out. Only the branch of what each screen shows is modelled.

## Findings

| source | as written | input that shows it | evidently intended | confidence | as-written member | corrected member |
|---|---|---|---|---|---|---|
| chrome-extension/src/services/toggle.js:41-110 | `setDisabled(true)` sets the status to `...` before the request. `showError` then saves that text and restores it two seconds later, and `setDisabled(false)` does not redraw the label | a failed toggle from OFF, with a non-ok answer or a network error | the label of the unchanged state (`OFF`) comes back after the error display | not executed | Toggle.FailedToggleShows | Toggle.FailedToggleRestoringLabelShows |
| backend/src/routes/monitor/index.ts:146-152 | the traversal check tests whether the resolved path's text starts with the screenshots directory's text | `GET /screenshot/..%2Fscreenshots_evil%2Fx` resolves to the sibling directory `screenshots_evil`, whose path text starts with `…/screenshots` | serve only paths inside the directory: equal to it or continuing with `/` | not executed | MonitorRoute.SiblingDirectoryServed | MonitorRoute.InsideIffPrefix |
| backend/src/services/tools/add.ts:33-45 | the window compares the stored `created_at` text with ISO texts (`YYYY-MM-DDTHH:MM:SS.sssZ`) | a snapshot stored as `2025-10-19 14:35:22` and looked up at `2025-10-19T14:35:22Z`, the same instant: its text sorts below the lower bound `2025-10-19T14:30:22.000Z`, because a space sorts before `T` | find snapshots whose instant lies within five minutes of the target | not executed | SnapshotContextAdd.SameInstantMissed | SnapshotContextAdd.Execute |
