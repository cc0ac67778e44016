# TimelyAI meeting-assistant UI — a Dafny model

TimelyAI is a demo web front end for a meeting-scheduling assistant. It has
no scheduling engine of its own. What it does have is client-side state:

- a scheduling run that walks five progress steps, fans out over contact
  methods on one step, and can be forced into an error that a manual
  takeover resolves;
- priority lists reordered by dragging, using the `splice` move;
- an invite wizard with a step counter, notification channels, a manual
  processing panel and a processing log;
- meeting lists with upcoming/past tabs, cancellation, and an HTTP client
  that classifies failures;
- a notification centre, two chat windows (a socket chat with a retry
  counter, and a request/response assistant dialogue), a typewriter banner,
  and the integrations and settings pages.

This project models that state in Dafny. Pure record and list code becomes
functions with lemmas. React components whose handlers change state step by
step become classes: their fields are the component state, and their methods
are the handlers, each specified against a function of the old state. The
three drag handlers copy the list into an array and move one element in place
(`Reorder.MoveInPlace`), as the source does with `Array.from` and two
`splice` calls.

JavaScript semantics are written out where they matter:

- truthiness: `""` is falsy, so a details or error field of `""` is not
  shown, while `[]` is truthy;
- `String.prototype.trim` over ECMAScript whitespace;
- decimal number-to-string conversion inside template strings;
- `splice` with an index past the end, which removes nothing.

Timers, the clock, HTTP responses and socket events are parameters of the
methods that consume them.

A progress step has no `pending` status: the step type
(frontend/components/SchedulingProgress.tsx:15) has only `in_progress`,
`completed` and `error`. Only contact methods can be `pending`.

## Model

| member | source | states |
|---|---|---|
| JsText.NatToString | frontend/lib/api.ts:127 | The decimal text of a number is non-empty, all digits, one character long exactly for numbers below ten, and has no leading zero |
| JsText.NatToStringValue | frontend/lib/api.ts:127 | The decimal text of `n`, read back digit by digit, denotes `n` |
| JsText.NatToStringInjective | frontend/app/schedule/page.tsx:176 | Different numbers give different decimal texts, so a step id built from a count identifies that count |
| JsText.TrimStart | frontend/src/components/MeetingInvite.js:560 | Leading whitespace is removed: the result is a suffix of the input, everything removed is whitespace, and the result starts with a non-whitespace character or is empty |
| JsText.TrimEnd | frontend/src/components/MeetingInvite.js:560 | Trailing whitespace is removed: the result is a prefix of the input, everything removed is whitespace, and the result ends with a non-whitespace character or is empty |
| JsText.Trim | frontend/src/components/MeetingInvite.js:560 | `trim()` is no longer than its input and neither starts nor ends with whitespace |
| JsText.TrimShape | frontend/src/components/MeetingInvite.js:560 | `trim()` is the contiguous piece of the input between a whitespace prefix and a whitespace suffix |
| JsText.TrimStartEmptyIffBlank | frontend/src/components/MeetingInvite.js:560 | Trimming the leading whitespace leaves nothing exactly when the text is all whitespace |
| JsText.TrimEmptyIffBlank | frontend/src/components/MeetingInvite.js:560 | `trim()` gives "" (a falsy value) exactly when the text is all whitespace |
| JsText.TrimIsEmpty | frontend/src/components/MeetingInvite.js:560 | `!s.trim()` holds exactly when the text is all whitespace |
| JsText.TrimEndKeepsNonBlankHead | frontend/src/components/MeetingInvite.js:560 | Trimming the end of a text that starts with non-whitespace leaves it non-empty |
| Lists.Filter | frontend/components/MeetingList.tsx:43 | `Array.prototype.filter`: the result is no longer than the input and every kept element passes the test |
| Lists.FilterMembership | frontend/components/MeetingList.tsx:43 | An element is in the filtered list exactly when it is in the list and passes the test |
| Lists.FilterSplit | frontend/components/MeetingList.tsx:43-44 | Filtering by a test and by its negation splits the list: multisets and lengths add up to the whole |
| Lists.FilterCommute | frontend/components/MeetingList.tsx:43-56 | Two filters give the same list in either order |
| Reorder.Moved | components/ContactMethodsPriority.tsx:19-21 | The list after `splice(source, 1)` and then `splice(destination, 0, item)`; same length as before |
| Reorder.MovedAt | components/ContactMethodsPriority.tsx:19-21 | Element k of the moved list: the moved item at the destination, and neighbours shifted by one between source and destination |
| Reorder.MovedLands | components/ContactMethodsPriority.tsx:19-21 | The dragged item ends at the destination index |
| Reorder.MovedKeepsOthers | components/ContactMethodsPriority.tsx:19-21 | Removing the dragged item from the result gives the input without it: the other items keep their relative order |
| Reorder.MovedKeepsOutsideIndices | components/ContactMethodsPriority.tsx:19-21 | Items outside the range between source and destination keep their index |
| Reorder.MovedPermutation | components/ContactMethodsPriority.tsx:19-21 | A move is a permutation: the multiset of items is unchanged |
| Reorder.MovedInPlace | components/ContactMethodsPriority.tsx:19-21 | Dropping an item where it was picked up leaves the list unchanged |
| Reorder.MoveInPlace | components/ContactMethodsPriority.tsx:19-21 | The in-place array move leaves the array equal to `Moved` of its old contents |
| Progress.MethodIcon | frontend/components/SchedulingProgress.tsx:48-52 | A contact method has no icon exactly when it is pending; a completed one gets the check mark |
| Progress.StepIcon | frontend/components/SchedulingProgress.tsx:33-35 | Each step status has its own icon: the warning triangle exactly for an error, the check mark exactly for completed, the hourglass exactly for in progress |
| Progress.RenderStep | frontend/components/SchedulingProgress.tsx:30-58 | The manual-takeover button appears exactly for an error step; details appear exactly when truthy; the method list appears exactly when present, in order, with no icon exactly on pending methods |
| Progress.Render | frontend/components/SchedulingProgress.tsx:30 | One view per step, in step order |
| Progress.ManualInterventionOffered | frontend/components/SchedulingProgress.tsx:37-41 | The panel offers a manual takeover exactly when some step is in error |
| StepUpdates.UpdateContactMethodStatus | frontend/lib/utils.ts:9-19 | Id and name are kept; status and details are replaced, and omitted details clear the old ones |
| StepUpdates.UpdateStepContactMethods | frontend/lib/utils.ts:21-37 | A step without contact methods is returned as is; otherwise only the method at the index changes, and the step's own fields and the list length are kept |
| StepUpdates.UpdateOutOfRangeUnchanged | frontend/lib/utils.ts:31-35 | An index outside the method list leaves the step unchanged |
| StepUpdates.CreateProgressStep | frontend/lib/utils.ts:39-53 | The new step carries the given fields; the status defaults to completed |
| SchedulePage.InitialSteps | frontend/app/schedule/page.tsx:29-35 | Five steps, all completed; step "4" has an empty contact-method list |
| SchedulePage.AllPending | frontend/app/schedule/page.tsx:70 | Every contact method is reset to pending, keeping its id and name, in the same order |
| SchedulePage.SyncContactMethods | frontend/app/schedule/page.tsx:62-75 | The step with id "4" is rebuilt with the reordered methods, all pending, its status kept and its details cleared; every other step is unchanged |
| SchedulePage.SyncIdempotent | frontend/app/schedule/page.tsx:62-75 | Running the sync effect twice with the same methods is the same as running it once |
| SchedulePage.MarkInProgress | frontend/app/schedule/page.tsx:110-112 | Only step i becomes in progress; the others are unchanged |
| SchedulePage.CompleteWithDetail | frontend/app/schedule/page.tsx:117-150 | Only step i becomes completed with the canned detail; the others are unchanged |
| SchedulePage.SimulatedError | frontend/app/schedule/page.tsx:180-188 | Step index 3 becomes an error step with the fixed message, keeping its id and contact methods and losing its details; the others are unchanged |
| SchedulePage.WithManualStep | frontend/app/schedule/page.tsx:172-178 | One completed step is appended, its id the new length in decimal; the old steps are kept |
| SchedulePage.InitialStepsNumbered | frontend/app/schedule/page.tsx:29-35 | The initial step ids are "1".."5" in order |
| SchedulePage.ManualStepIdIsNew | frontend/app/schedule/page.tsx:174-177 | On a list numbered 1..n, the appended step's id differs from every existing id, and the list stays numbered |
| SchedulePage.ContactProgressTrace | frontend/app/schedule/page.tsx:77-100 | The contact-method loop publishes at most three states |
| SchedulePage.ContactProgressFirstMethod | frontend/app/schedule/page.tsx:82-93 | With at least one method, the loop first marks method 0 in progress and then completed with the e-mail confirmation |
| SchedulePage.ContactProgressStopsAtSecond | frontend/app/schedule/page.tsx:82-96 | With two or more methods the loop marks method 1 in progress and stops; because each update starts from the step read before the loop, method 0 is back to its original state |
| SchedulePage.ContactProgressSingleMethod | frontend/app/schedule/page.tsx:82-98 | With exactly one method, the loop ends with that method completed |
| SchedulePage.RunPrefix | frontend/app/schedule/page.tsx:108-142 | The step list after the first i iterations of a run has five steps, and the steps not yet reached are the reset ones |
| SchedulePage.CorrectedRunKeepsDetails | frontend/app/schedule/page.tsx:102-157 | If the contact-method loop updated the current list, a run would end with steps 1, 2, 3 and 5 completed with their canned details and step 4 in progress |
| SchedulePage.AfterStaleSubLoop | frontend/app/schedule/page.tsx:77-144 | After iteration 3, the list is either untouched by the loop (nothing published) or the list captured when the run started, with step index 3 replaced by the loop's last state |
| SchedulePage.RunAsWritten | frontend/app/schedule/page.tsx:102-157 | The list a run ends with has as many steps as the list after iteration 3 |
| SchedulePage.StaleRunRevertsEarlierSteps | frontend/app/schedule/page.tsx:77-150 | When the loop publishes anything, a run ends with the pre-run list except step index 3 (the loop's last state, with its pre-run status) and step index 4 (completed with its detail) |
| SchedulePage.FirstRunAsWritten | frontend/app/schedule/page.tsx:77-157 | The first run on a fresh page ends with steps 1 to 3 without details, step 4 `completed` with [email pending, im in progress, sms pending, phone pending], and step 5 completed with its detail |
| SchedulePage.ScheduleMeeting.constructor | frontend/app/schedule/page.tsx:37-75 | Initial state after the first sync: initial methods, synced initial steps, progress 0, no run, no modal, no confetti |
| SchedulePage.ScheduleMeeting.OnDragEnd | frontend/app/schedule/page.tsx:164-170 | Without a destination nothing changes; otherwise the methods are moved and the sync effect rewrites step "4" |
| SchedulePage.ScheduleMeeting.SimulateContactMethodProgress | frontend/app/schedule/page.tsx:77-100 | The loop publishes exactly `ContactProgressTrace` of the captured step; if it publishes anything, the list becomes the captured list with that step's last published state, otherwise the list is untouched |
| SchedulePage.ScheduleMeeting.RunScheduling | frontend/app/schedule/page.tsx:102-157 | The run ends with `RunAsWritten` of the list it started from: the pre-run list except step index 3 (the contact-method loop's last state) and step index 4 (completed with its detail); progress values 20, 40, 60, 80, 100 in order, the scheduling flag off and the confetti on |
| SchedulePage.ScheduleMeeting.RequestManualIntervention | frontend/app/schedule/page.tsx:276 | The takeover button opens the modal |
| SchedulePage.ScheduleMeeting.CompleteManualIntervention | frontend/app/schedule/page.tsx:172-178 | The modal closes and the completed takeover step is appended |
| SchedulePage.ScheduleMeeting.CancelManualIntervention | frontend/components/ManualInterventionModal.tsx:13-24 | Cancelling or closing the modal (page.tsx:278-280) hides it and changes no step |
| SchedulePage.ScheduleMeeting.SimulateError | frontend/app/schedule/page.tsx:180-188 | The steps become `SimulatedError` of the old steps |
| ContactPriority.Ids | components/ContactMethodsPriority.tsx:10-14 | The ids of the items, in order |
| ContactPriority.InitialOrder | components/ContactMethodsPriority.tsx:10-14 | The list starts as phone, e-mail, SMS |
| ContactPriority.IdsMoved | components/ContactMethodsPriority.tsx:16-24 | Moving items moves their ids the same way |
| ContactPriority.DragKeepsIds | components/ContactMethodsPriority.tsx:19-21 | A drag keeps the multiset of ids |
| ContactPriority.ContactMethodsPriority.constructor | components/ContactMethodsPriority.tsx:10-14 | The list starts with the three initial items |
| ContactPriority.ContactMethodsPriority.OnDragEnd | components/ContactMethodsPriority.tsx:16-24 | Without a destination nothing changes; otherwise the items are `Moved` |
| Participants.ValueOrDefault | frontend/src/components/ParticipantSelector.js:5 | An absent `value` prop reads as the empty list |
| Participants.Selected | frontend/src/components/ParticipantSelector.js:30-37 | One participant copied from the option is appended; the old list is a prefix |
| Participants.Removed | frontend/src/components/ParticipantSelector.js:41-45 | Removing an index in range drops exactly that participant; an index past the end changes nothing |
| Participants.ParticipantSelector.constructor | frontend/src/components/ParticipantSelector.js:6-8 | Empty search text, no results, not loading |
| Participants.ParticipantSelector.HandleSearch | frontend/src/components/ParticipantSelector.js:10-28 | Empty text clears the results without a request; otherwise the results become what was found, or are kept when the request failed, and loading ends |
| Participants.ParticipantSelector.HandleSelect | frontend/src/components/ParticipantSelector.js:30-39 | The new value is `Selected` and the search text is cleared |
| MeetingInvite.Renumbered | frontend/src/components/MeetingInvite.js:81-84 | Priorities become 1..n in list order and nothing else changes |
| MeetingInvite.DraggedChannels | frontend/src/components/MeetingInvite.js:76-86 | The channel list after a drag keeps its length and is numbered 1..n in order |
| MeetingInvite.DragPermutesAndRenumbers | frontend/src/components/MeetingInvite.js:73-87 | After a drag the channels are a permutation of the old ones apart from priority, the dragged one is at the destination, and priorities are 1..n in order |
| MeetingInvite.WithEnabled | frontend/src/components/MeetingInvite.js:286-292 | Only the `enabled` flag of the channel with that id changes |
| MeetingInvite.InsertByPriority | frontend/src/components/MeetingInvite.js:484 | Inserting into a priority-sorted list keeps it sorted and adds exactly that channel |
| MeetingInvite.SortByPriority | frontend/src/components/MeetingInvite.js:484 | The result is sorted by priority and a permutation of the input |
| MeetingInvite.StrategyChannels | frontend/src/components/MeetingInvite.js:484 | The strategy gets exactly the enabled channels, each as often as in the list, sorted by priority |
| MeetingInvite.SortKeepsSorted | frontend/src/components/MeetingInvite.js:484 | A list already in priority order is not changed by sorting |
| MeetingInvite.FilterKeepsSubsequenceOrder | frontend/src/components/MeetingInvite.js:484 | Filtering a priority-sorted list keeps it sorted |
| MeetingInvite.StrategyFollowsListOrder | frontend/src/components/MeetingInvite.js:484 | With priorities 1..n in list order, as every drag leaves them, the strategy gets the enabled channels in list order |
| MeetingInvite.ManualProgress | frontend/src/components/MeetingInvite.js:549-557 | Progress is a multiple of 25 between 0 and 100; it is 100 exactly for "completed" and 0 exactly for an unknown status |
| MeetingInvite.ManualProgressRises | frontend/src/components/MeetingInvite.js:549-557 | preparing < sending < confirming < completed |
| MeetingInvite.TimeOrNull | frontend/src/components/MeetingInvite.js:57 | A time is kept exactly when it is present and not "" |
| MeetingInvite.MeetingInvite.constructor | frontend/src/components/MeetingInvite.js:20-42 | Empty meeting fields, standard mode, step 0, the five initial channels numbered in order, waiting status, empty log, "preparing" |
| MeetingInvite.MeetingInvite.ManualPanelNeverShown | frontend/src/components/MeetingInvite.js:419 | The panel needs mode "manual", which no handler sets, so it is never shown |
| MeetingInvite.MeetingInvite.UseNaturalMode | frontend/src/components/MeetingInvite.js:150 | The mode becomes natural |
| MeetingInvite.MeetingInvite.UseStandardMode | frontend/src/components/MeetingInvite.js:96 | The mode becomes standard |
| MeetingInvite.MeetingInvite.SetParticipants | frontend/src/components/MeetingInvite.js:158 | The participants are replaced |
| MeetingInvite.MeetingInvite.SetSubject | frontend/src/components/MeetingInvite.js:180-183 | The subject is replaced |
| MeetingInvite.MeetingInvite.SetTime | frontend/src/components/MeetingInvite.js:196-199 | The time is replaced |
| MeetingInvite.MeetingInvite.SetManualNote | frontend/src/components/MeetingInvite.js:440 | The note is replaced |
| MeetingInvite.MeetingInvite.Next | frontend/src/components/MeetingInvite.js:638-645 | The step goes up by one only in standard mode and when Next is enabled: participants at step 0, subject and time at step 1 |
| MeetingInvite.MeetingInvite.Back | frontend/src/components/MeetingInvite.js:628-634 | The step goes down by one only in standard mode and past step 0 |
| MeetingInvite.MeetingInvite.HandleDragEnd | frontend/src/components/MeetingInvite.js:73-87 | Without a destination nothing changes; otherwise the channels become `DraggedChannels` |
| MeetingInvite.MeetingInvite.SetChannelEnabled | frontend/src/components/MeetingInvite.js:286-292 | The channels become `WithEnabled` |
| MeetingInvite.MeetingInvite.HandleManualProcess | frontend/src/components/MeetingInvite.js:537-540 | Status processing, progress 0 |
| MeetingInvite.MeetingInvite.HandleManualStatusChange | frontend/src/components/MeetingInvite.js:549-557 | The status is stored and the progress becomes `ManualProgress` of it |
| MeetingInvite.MeetingInvite.AddProcessingLog | frontend/src/components/MeetingInvite.js:542-547 | Exactly one entry stamped with the current time is appended |
| MeetingInvite.MeetingInvite.FinishProcessing | frontend/src/components/MeetingInvite.js:455-459 | Progress 100, status success, step 4 |
| MeetingInvite.MeetingInvite.HandleAddManualLog | frontend/src/components/MeetingInvite.js:559-579 | A blank note only warns; otherwise one info entry is appended and the note cleared, and a completed status finishes the processing |
| MeetingInvite.MeetingInvite.HandleDialogueComplete | frontend/src/components/MeetingInvite.js:44-71 | On success the fields get the processed values or their defaults, the dialogue is complete and the step is at least 2; on failure nothing changes |
| Api.FetchErrorMessage | frontend/lib/api.ts:121-130 | ERR_NETWORK gives the network message, even with a response; otherwise a response gives "服务器错误: " and the status; anything else gives the generic message |
| Api.FetchMeetings | frontend/lib/api.ts:117-132 | The data is returned unchanged on success; every failure becomes an Error with the classified message |
| Api.CreateMeeting | frontend/lib/api.ts:135-143 | The created meeting on success; on failure the caught error itself is rethrown |
| Api.ServerError500 | frontend/lib/api.ts:127 | An HTTP 500 reads "服务器错误: 500" |
| Api.MessagesDistinguishFailures | frontend/lib/api.ts:121-130 | The three kinds of message never coincide, and equal server messages mean equal statuses |
| Meetings.UpcomingMeetings | frontend/components/MeetingList.tsx:43 | Every meeting on the upcoming tab is upcoming |
| Meetings.PastMeetings | frontend/components/MeetingList.tsx:44 | Every meeting on the past tab is past |
| Meetings.Cancelled | frontend/components/MeetingList.tsx:54-56 | No meeting with the cancelled id is left |
| Meetings.TabsPartition | frontend/components/MeetingList.tsx:43-44 | The two tabs split the list: multisets and lengths add up to the list, and the tabs share nothing |
| Meetings.CancelRemovesExactly | frontend/app/components/MeetingList.tsx:59-61 | A meeting survives exactly when its id differs; an absent id changes nothing; kept and removed meetings together are the list |
| Meetings.CancelCommutesWithTabs | frontend/components/MeetingList.tsx:43-56 | Cancelling and then opening a tab is the same as removing the meeting from that tab |
| Meetings.ActionsOnlyOnUpcomingTab | frontend/app/components/MeetingList.tsx:82-97 | A meeting offers join, edit and cancel exactly when it is on the upcoming tab; no meeting of the past tab offers them |
| MeetingListView.ErrorText | frontend/components/MeetingList.tsx:33 | An Error's own message, else "An unknown error occurred" |
| MeetingListView.ScreenOf | frontend/components/MeetingList.tsx:58-76 | Spinner exactly while loading; otherwise the alert exactly for a truthy error, with that message; otherwise the two tabs |
| MeetingListView.FailedLoadShowsAlert | frontend/components/MeetingList.tsx:26-37 | A failed fetch always ends on the alert with the classified message, never the fallback text |
| MeetingListView.MeetingList.constructor | frontend/components/MeetingList.tsx:22-24 | No meetings, loading, no error |
| MeetingListView.MeetingList.LoadMeetings | frontend/components/MeetingList.tsx:26-37 | The spinner shows while pending; success replaces the meetings and leaves no error; failure keeps them and stores the classified message; loading ends |
| MeetingListView.MeetingList.CancelMeeting | frontend/components/MeetingList.tsx:54-56 | The meetings become `Cancelled` of the old ones |
| MockMeetingList.MockMeetings | frontend/app/components/MeetingList.tsx:18-43 | Three sample meetings with distinct ids |
| MockMeetingList.MockTabs | frontend/app/components/MeetingList.tsx:18-49 | Meetings "1" and "2" are upcoming, "3" is past, and cancelling "1" leaves only "2" upcoming |
| MockMeetingList.MeetingList.constructor | frontend/app/components/MeetingList.tsx:46 | The list starts as the sample meetings |
| MockMeetingList.MeetingList.CancelMeeting | frontend/app/components/MeetingList.tsx:59-61 | The meetings become `Cancelled` of the old ones |
| Notifications.InitialNotifications | frontend/src/components/NotificationCenter.js:6-10 | Two notifications, ids 1 and 2, both unread |
| Notifications.MarkAsRead | frontend/src/components/NotificationCenter.js:14-18 | Same length; notifications with the id become read, all others are unchanged |
| Notifications.MarkAsReadIdempotent | frontend/src/components/NotificationCenter.js:14-18 | Marking twice is marking once |
| Notifications.MarkUnknownUnchanged | frontend/src/components/NotificationCenter.js:14-18 | An id no notification has leaves the list unchanged |
| Notifications.Filtered | frontend/src/components/NotificationCenter.js:24-29 | The shown list is no longer than the whole and every shown notification passes the tab's test |
| Notifications.FilterMeaning | frontend/src/components/NotificationCenter.js:24-29 | "all" shows everything; "confirmed" exactly the read ones; "completed" exactly the completed ones; any other filter nothing |
| Notifications.MarkedIsConfirmed | frontend/src/components/NotificationCenter.js:43-45 | A marked notification no longer offers the mark-read button and is on the "confirmed" tab |
| ChatInterface.RetryNotice | frontend/components/ChatInterface.tsx:57 | The notice is "连接失败 (", then the attempt number in decimal, then "/10)，正在重试..." |
| ChatInterface.RetryNoticeShowsCount | frontend/components/ChatInterface.tsx:57 | Different attempts give different notices |
| ChatInterface.RetryNotices | frontend/components/ChatInterface.tsx:50-64 | Consecutive connection errors add only system messages |
| ChatInterface.RetryNoticesCapped | frontend/components/ChatInterface.tsx:55 | From a count of at most ten, k errors add min(k, 10 − count) notices: never more than ten in all |
| ChatInterface.RetryNoticesSilent | frontend/components/ChatInterface.tsx:55 | Past ten attempts, errors add nothing |
| ChatInterface.StampOf | frontend/components/ChatInterface.tsx:46 | A truthy timestamp is kept; otherwise the current time is used |
| ChatInterface.SendButtonLabel | frontend/components/ChatInterface.tsx:144 | The button reads "发送" exactly when connected |
| ChatInterface.ChatWindow.constructor | frontend/components/ChatInterface.tsx:18-22 | Empty log and input, no socket, disconnected, count 0 |
| ChatInterface.ChatWindow.Mount | frontend/components/ChatInterface.tsx:76 | The socket is stored |
| ChatInterface.ChatWindow.OnConnect | frontend/components/ChatInterface.tsx:36-40 | Connected, count reset to 0 |
| ChatInterface.ChatWindow.OnMessage | frontend/components/ChatInterface.tsx:42-48 | The message is appended at the end with its own timestamp or the current time |
| ChatInterface.ChatWindow.OnConnectError | frontend/components/ChatInterface.tsx:50-64 | Disconnected; the count goes up by one; a notice with the new count is appended exactly when it is at most 10 |
| ChatInterface.ChatWindow.OnDisconnect | frontend/components/ChatInterface.tsx:66-74 | Disconnected; exactly one system notice is appended |
| ChatInterface.ChatWindow.SetInputMessage | frontend/components/ChatInterface.tsx:129 | The input is replaced |
| ChatInterface.ChatWindow.SendMessage | frontend/components/ChatInterface.tsx:83-95 | Sends exactly when the input is not blank, a socket exists and it is connected; then one user message is logged, the same text emitted and the input cleared; otherwise nothing changes |
| ChatDialog.Mounted | frontend/src/components/ChatDialog.js:11-17 | The log holds exactly one assistant message; empty input; dialogue open |
| ChatDialog.Send | frontend/src/components/ChatDialog.js:19-57 | A send only appends to the log: the old messages are kept, in order, at its head |
| ChatDialog.SendOutcome | frontend/src/components/ChatDialog.js:19-57 | A blank input changes nothing; the dialogue becomes complete exactly on a successful completing reply; the summary reaches the parent exactly when that happens and the callback exists |
| ChatDialog.SendLog | frontend/src/components/ChatDialog.js:22-56 | The user's message is logged first, then the assistant's text for a "success" reply, then the error notice if the send threw; the input is cleared exactly when nothing threw |
| ChatDialog.MissingCallbackLosesSummary | frontend/src/components/MeetingInvite.js:104-107 | With the props as the wizard passes them, a completing reply delivers nothing, logs the error notice after the reply and keeps the input |
| ChatDialog.WiredCallbackDeliversSummary | frontend/src/components/ChatDialog.js:43-46 | With the callback under its expected name, a completing reply hands over the summary and clears the input |
| ChatDialog.CompletionIsFinal | frontend/src/components/ChatDialog.js:43-44 | A completed dialogue stays complete |
| ChatDialog.ChatDialogBox.constructor | frontend/src/components/ChatDialog.js:6-17 | The mounted state with the welcome message |
| ChatDialog.ChatDialogBox.SetUserInput | frontend/src/components/ChatDialog.js:71 | The input is replaced |
| ChatDialog.ChatDialogBox.SendMessage | frontend/src/components/ChatDialog.js:19-57 | The new state and the delivered summary are those of `Send` |
| Typewriter.Initial | frontend/app/components/TypewriterEffect.tsx:8-10 | The start state satisfies the invariant |
| Typewriter.Tick | frontend/app/components/TypewriterEffect.tsx:13-28 | Keeps the counters within the four phrases and the current phrase; deletes, turns to the next phrase, types, or starts deleting, by the four cases |
| Typewriter.Ticks | frontend/app/components/TypewriterEffect.tsx:12-31 | Any number of ticks keeps the invariant |
| Typewriter.Displayed | frontend/app/components/TypewriterEffect.tsx:37 | The text on screen is a prefix of the current phrase, `charIndex` long |
| Typewriter.TicksAdd | frontend/app/components/TypewriterEffect.tsx:12-31 | a + b ticks are a ticks followed by b ticks |
| Typewriter.TypingCompletes | frontend/app/components/TypewriterEffect.tsx:21-23 | Typing reaches the whole phrase after as many ticks as characters are missing |
| Typewriter.DeletingCompletes | frontend/app/components/TypewriterEffect.tsx:14-16 | Deleting empties the line after as many ticks as characters are shown |
| Typewriter.CycleAdvancesPhrase | frontend/app/components/TypewriterEffect.tsx:13-28 | From an empty line, 2·length + 2 ticks type, turn, delete and move to the next phrase, wrapping after the fourth |
| Typewriter.TypewriterEffect.constructor | frontend/app/components/TypewriterEffect.tsx:8-10 | Phrase 0, no characters, typing |
| Typewriter.TypewriterEffect.OnInterval | frontend/app/components/TypewriterEffect.tsx:13-28 | One tick: the new counters are `Tick` of the old ones, and the invariant holds |
| Integrations.InitialIntegrations | frontend/app/integrations/page.tsx:25-31 | Exactly the five tools, all disconnected |
| Integrations.Toggle | frontend/app/integrations/page.tsx:33-35 | That tool's flag is negated; every other key is kept |
| Integrations.ToggleTwice | frontend/app/integrations/page.tsx:33-35 | Toggling a tool twice restores the state |
| Integrations.TogglesCommute | frontend/app/integrations/page.tsx:33-35 | Toggling two different tools gives the same state in either order |
| Integrations.StatusLabel | frontend/app/integrations/page.tsx:51 | "已连接" exactly when connected |
| Integrations.ConnectButton | frontend/app/integrations/page.tsx:55-56 | Disabled exactly when connected; the caption is "连接" exactly when disconnected |
| Settings.InitialPreferences | frontend/app/settings/page.tsx:7-18 | Notifications on, Monday/Wednesday/Friday, at most 5 meetings a day |
| Settings.InitialImPreferences | frontend/app/settings/page.tsx:11-17 | WeChat Work, DingTalk and Teams on; Feishu and Slack off |
| Settings.HandleChange | frontend/app/settings/page.tsx:20-26 | The named field becomes the checked state for a checkbox and the text otherwise; every other field is kept |
| Settings.HandleImPreferenceChange | frontend/app/settings/page.tsx:28-36 | Only that tool's flag is negated; other tools and other fields are kept |
| Settings.SetNotificationsEnabled | frontend/app/settings/page.tsx:46 | Only `notificationsEnabled` changes |
| Settings.DayChecked | frontend/app/settings/page.tsx:59 | A day is ticked exactly when the list contains it; a non-list field makes the render throw |
| Settings.InitialDays | frontend/app/settings/page.tsx:53-59 | Initially Monday, Wednesday and Friday are ticked, and Tuesday and Thursday are not |
| Settings.DayCheckboxBreaksList | frontend/app/settings/page.tsx:20-26 | Any day checkbox event replaces the list by a boolean, so every day checkbox then throws |
| Settings.ToggleDay | frontend/app/settings/page.tsx:53-62 | The corrected day checkbox keeps the days field a list and changes no other field |
| Settings.ToggleDayFollowsCheckbox | frontend/app/settings/page.tsx:53-62 | With the corrected checkbox, the day's tick follows the event and every other day keeps its own |

## Left out

- Timers, the clock and randomness: `setTimeout`/`setInterval` delays, the confetti animations (frontend/components/Confetti.tsx, `triggerConfetti`), and the 10-second confetti reset. Ticks and awaits are discrete steps, and "now" is a parameter.
- Network and sockets: HTTP requests, socket creation and reconnection timing (frontend/app/config/socket.ts), and `closeWebSocket`. Their results are parameters of the handlers that consume them.
- `handleAIProcess` in frontend/src/components/MeetingInvite.js:476-535. It chains two HTTP calls and a WebSocket progress stream with fractional progress (`30 + p * 0.7`), which is floating point over network events. The `channels.filter(...).sort(...)` payload it sends is modelled as `StrategyChannels`.
- SchedulePage.ScheduleMeeting.RunScheduling runs to the end without interleaving: a drag, an error simulation or a takeover during the run's awaits is not modelled. The step array that the contact-method loop publishes and then mutates in place is modelled as a value.
- Drag handlers require in-range indices. The drag library only reports positions inside the list. `splice` clamping for out-of-range indices is not modelled.
- The location and description inputs of the invite wizard, and `handleFormChange` of frontend/app/schedule/page.tsx:159-162. They are plain field replacements shaped like the modelled setters.
- Join and edit on both meeting lists only write to the console, and `handleConnect` on the integrations page does the same. They change no state.
- The notification texts of frontend/src/components/NotificationCenter.js:7 come from the translation table. They are parameters.
- The message, time-preference and timestamp rendering of the chat window, the send-on-Enter key handling, and the CSS classes.
- MeetingInvite.MeetingInvite.HandleDialogueComplete: a processed time is kept as its string; the `moment` parsing is not modelled.
- Settings.DayChecked: `includes` on a string value is modelled as a substring test. That case is unreachable from the form, since a day checkbox writes a boolean.

## Findings

| source | as written | input that shows it | evidently intended | confidence | as-written member | corrected member |
|---|---|---|---|---|---|---|
| frontend/src/components/MeetingInvite.js:104-107 | The wizard passes its handler to the dialogue as `onComplete`, but the dialogue calls `onDialogComplete` (frontend/src/components/ChatDialog.js:6,45) | A non-blank message answered by `{status: "success", dialogue_complete: true}`: the undefined callback throws, the error notice follows the reply, the input is kept, and the wizard never gets the summary | The handler is passed as `onDialogComplete`, so the summary reaches `handleDialogueComplete` | high, not executed | ChatDialog.MissingCallbackLosesSummary | ChatDialog.WiredCallbackDeliversSummary |
| frontend/app/schedule/page.tsx:77-99 | The contact-method loop copies `schedulingSteps` from the render in which the run started and publishes the whole copy with `setSchedulingSteps(updatedSteps)` | A first run on a fresh page: at step index 3 the copy replaces the list, so steps 1 to 3 lose the details the run gave them and step 4 returns to `completed` with its second method in progress | The loop updates step index 3 of the current list, so every detail the run wrote survives | high, not executed | SchedulePage.FirstRunAsWritten | SchedulePage.CorrectedRunKeepsDetails |
| frontend/app/settings/page.tsx:20-26 | Every day checkbox is named `preferredMeetingDays` and calls `handleChange`, which stores `checked` under that name | Ticking "Tuesday" replaces the list by `true`, and the next render's `.includes` throws | Ticking a day adds it to the list, and unticking removes it | high, not executed | Settings.DayCheckboxBreaksList | Settings.ToggleDayFollowsCheckbox |
