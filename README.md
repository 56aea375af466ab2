# TaskTrail in Dafny

TaskTrail is a single-page task tracker with streaks and stars, and an AI chat assistant
("TrailGuide") served by several small HTTP endpoints. This project models its core and proves
properties of the model.

The task side:

- the `appReducer` of `src/contexts/AppContext.tsx` is `AppReducer.Reduce`, a pure function over
  an `AppState` value, with the clock reading as a parameter;
- `Run` folds the reducer over a sequence of actions;
- the components' logic:
  - the task list filter and deadline labels (`TaskList`);
  - the task form's submit and reset, a class over the five form fields (`TaskForm`);
  - the 30-day streak calendar, built by a loop (`StreakCalendar`);
  - the header greeting (`Header`);
  - the filter panel (`FilterSort`);
  - the first-run dialog, a class over its two fields (`WelcomeModal`);
- the record types of `src/types/index.ts` (`Types`).

The chat side models each variant as written:

- the unified endpoint `api/chat.ts` (`ChatTs`);
- the unified endpoint `api/chat.js` (`ChatJs`), with the provider clients
  `src/api/chat/groq.js` and `src/api/chat/deepseek.js` (`ProviderClient`);
- the endpoint `api/ai-chat.js` (`AiChat`);
- the placeholder endpoints `api/groq.js` and `api/deepseek.js` (`Placeholders`);
- the stand-alone chat page `script.js`, a class over the page's global state (`Script`);
- the React chat panel `src/components/Chatbox.tsx`, a class over its three state variables
  (`Chatbox`).

Every provider or endpoint answer is an input: a `FetchOutcome`, which is a network error or a
status with a body that did or did not parse as JSON. The fallback from Groq to DeepSeek is
therefore a deterministic procedure, and each handler's `ensures` states the response and the
outgoing requests for every combination of answers.

Time is a local clock reading in milliseconds, and a calendar day is `ms / 86400000` (module
`Time`). Environment variables, `Math.random()` and `JSON.stringify` of the task context are
parameters too.

Two cross-file behaviours follow from the model:

- Completing a task stamps its completion time and marks today's calendar cell.
- The React panel posts `{message}` to `/api/deepseek`, but that endpoint reads `userMessage`.
  Every panel request is therefore answered with a 500, and the panel shows its connection
  apology (`Chatbox.PlaceholderRejectsPanel`). The panel also reads `response`, while the
  endpoint writes `reply`.

Where the prose description of the system and the code disagree, the model follows the code:

- AUTO_DELETE_COMPLETED removes a task completed exactly 48 hours ago: it keeps a completed task
  only when its completion time is strictly after the cutoff. The reducer does not consult
  `autoDelete`; only the timer that dispatches the action does.
- UPDATE_TASK and TOGGLE_TASK with an unknown id leave the state unchanged and report no error.
- The 'upcoming' deadline filter means a deadline strictly after now, not beyond today.
- `script.js` matches the hint against the title only, for every task, completed or not. It sends
  the whole task list as context, with no cap.

## Model

| member | source | states |
|---|---|---|
| Types.ParseImportance | src/types/index.ts:14 | only the four level names are importance levels, and each reads back as the level it names |
| Types.ImportanceRoundTrip | src/types/index.ts:14 | every level's name parses back to that level |
| Types.ParseStatus | src/types/index.ts:27 | the status select accepts exactly 'all', 'active' and 'completed'; 'all' and only 'all' means no status filter; an accepted value gives the filter whose select value it is ('active' gives Active, 'completed' gives Completed) |
| Types.StatusRoundTrip | src/types/index.ts:27 | every status filter's select value parses back to that filter |
| Types.ParseImportanceFilter | src/types/index.ts:28 | the importance select accepts 'all' or a level name; 'all' and only 'all' means no importance filter; a level name gives the filter for the level it names |
| Types.ImportanceFilterRoundTrip | src/types/index.ts:28 | every importance filter's select value parses back to that filter |
| Types.ParseDeadline | src/types/index.ts:29 | the deadline select accepts exactly 'all', 'overdue', 'today' and 'upcoming'; 'all' and only 'all' means no deadline filter; an accepted value gives the filter whose select value it is ('overdue', 'today', 'upcoming' give Overdue, DueToday, Upcoming) |
| Types.DeadlineRoundTrip | src/types/index.ts:29 | every deadline filter's select value parses back to that filter |
| AppReducer.Reduce | src/contexts/AppContext.tsx:49-174 | each action changes only the parts of the state it is about: the user data only for toggles, user-data patches and loads, and so on for every field |
| AppReducer.FirstIndex | src/contexts/AppContext.tsx:69 | `find` stops at the first task with the id, or past the end when there is none |
| AppReducer.ReplaceById | src/contexts/AppContext.tsx:57-59 | the mapped list keeps the length of the task list |
| AppReducer.AddTaskAppends | src/contexts/AppContext.tsx:51-54 | ADD_TASK appends the task at the end; the earlier tasks, their order and the rest of the state are unchanged |
| AppReducer.UpdateTaskReplaces | src/contexts/AppContext.tsx:56-61 | UPDATE_TASK replaces every task with the id and no other, keeping length and order; an unknown id leaves the state unchanged |
| AppReducer.DeleteTaskRemoves | src/contexts/AppContext.tsx:63-66 | DELETE_TASK keeps exactly the tasks with another id, as an ordered subsequence, and changes nothing else |
| AppReducer.DeleteTaskKeepsCounts | src/contexts/AppContext.tsx:63-66 | DELETE_TASK keeps every task with another id as many times as it occurred, repeated tasks included, and no task with the id |
| AppReducer.DeleteTaskIdempotent | src/contexts/AppContext.tsx:63-66 | deleting an id no task has leaves the state unchanged, and deleting twice is the same as deleting once |
| AppReducer.ToggleUnknownId | src/contexts/AppContext.tsx:69-70 | TOGGLE_TASK with an id no task has returns the state unchanged |
| AppReducer.ToggleFlipsTask | src/contexts/AppContext.tsx:72-84 | TOGGLE_TASK flips `completed` of the first task with the id, stamps `completedAt` with the toggle time on completion and clears it otherwise, and writes that task over every task with the id; tasks with other ids, the filters and the dialog flag are unchanged |
| AppReducer.ToggleStars | src/contexts/AppContext.tsx:116-134 | completing adds one star; un-completing removes one, never going below zero |
| AppReducer.CompletionStreak | src/contexts/AppContext.tsx:86-128 | the first completion of a day extends the streak when the last completion day was yesterday, otherwise restarts it at 1; a repeat on the same day keeps it; the achievement shows exactly when the new streak equals the goal; the last completion day becomes today |
| AppReducer.UncompletionKeepsStreak | src/contexts/AppContext.tsx:129-137 | un-completing keeps the streak, the last completion day and the achievement flag |
| AppReducer.StreakExample | src/contexts/AppContext.tsx:97-114 | a completion the day after a 2-day streak makes it 3, and a second completion that day keeps it at 3 |
| AppReducer.ToggleTwice | src/contexts/AppContext.tsx:68-138 | toggling a task whose id is unique twice restores its completed flag and leaves the other tasks unchanged; from an open task it also restores the star count |
| AppReducer.PurgeRemovesExpired | src/contexts/AppContext.tsx:162-168 | AUTO_DELETE_COMPLETED removes exactly the completed tasks whose completion time is at or before 48 hours ago, keeping the others in order; the reducer does the same whatever `autoDelete` says |
| AppReducer.PurgeKeepsCounts | src/contexts/AppContext.tsx:162-168 | AUTO_DELETE_COMPLETED keeps every surviving task as many times as it occurred, repeated tasks included, and no expired task |
| AppReducer.PurgeExample | src/contexts/AppContext.tsx:163-166 | a task completed 49 hours ago is removed and one completed 47 hours ago is kept |
| AppReducer.ReducePreservesValid | src/contexts/AppContext.tsx:49-174 | every valid action keeps the invariants: completion time present exactly for completed tasks, and stars and streak not negative |
| AppReducer.RunPreservesValid | src/contexts/AppContext.tsx:49-174 | any sequence of valid actions keeps those invariants |
| AppReducer.InitialStateValid | src/contexts/AppContext.tsx:25-42 | the initial state satisfies the invariants, with streak goal 7 and auto-delete on |
| Time.DayBefore | src/contexts/AppContext.tsx:99 | the day of a reading 24 hours earlier is the day before |
| Time.DayOfBounds | src/components/StreakCalendar.tsx:23-30 | a completion time falls on a calendar day (same `toDateString`) exactly when it lies within that day's 24 hours |
| TaskList.MatchesIff | src/components/TaskList.tsx:15-40 | a task passes exactly when it passes the status, importance and deadline selects; a deadline filter other than 'all' drops tasks without a deadline; 'overdue' is before now, 'today' is within today's midnight-to-midnight window, 'upcoming' is after now |
| TaskList.FilteredIsOrderedSelection | src/components/TaskList.tsx:15-40 | the shown list is an ordered subsequence of the tasks holding exactly those that pass, each as many times as it occurs in the tasks |
| TaskList.AllOptionsShowEverything | src/components/TaskList.tsx:15-40 | with every select at 'all' every task is shown |
| TaskList.CompletedOnly | src/components/TaskList.tsx:19-20 | 'completed' alone shows exactly the completed tasks, in order |
| TaskList.CeilDiv | src/components/TaskList.tsx:64 | `Math.ceil(a / b)` is the least integer q with a <= q * b |
| TaskList.FormatDeadlineBuckets | src/components/TaskList.tsx:60-70 | the deadline label is 'Overdue' once the deadline is a full day or more past, 'Today' from then until now, 'Tomorrow' within the next day, and the day count beyond |
| TaskList.OverdueYetToday | src/components/TaskList.tsx:56-68 | a deadline one millisecond past is overdue for `isOverdue` but labelled 'Today' |
| JsStrings.TrimIsSlice | src/components/TaskForm.tsx:26 | `trim()` returns a slice of its input, and every character outside the slice is whitespace |
| JsStrings.TrimEnds | src/components/TaskForm.tsx:26 | the trimmed string neither starts nor ends with whitespace |
| JsStrings.TrimIdempotent | src/components/TaskForm.tsx:26 | trimming a trimmed string changes nothing |
| JsStrings.LowerCharSpec | script.js:144 | `toLowerCase` leaves no upper-case ASCII letter, maps each to its lower-case letter and changes no other character (ASCII folding only, see "## Left out") |
| JsStrings.IntToStringInjective | src/components/TaskForm.tsx:40 | `Date.now().toString()` ids made from different clock readings differ (also the message ids at `src/components/Chatbox.tsx:33`) |
| TaskForm.TrimmedOrNone | src/components/TaskForm.tsx:27-28 | `s.trim() \|\| undefined` is absent exactly for a blank string and otherwise the non-empty trimmed string |
| TaskForm.SubmitAction | src/components/TaskForm.tsx:21-49 | nothing is dispatched exactly when the title is blank; otherwise UPDATE_TASK when editing and ADD_TASK when not |
| TaskForm.BlankTitleSubmitsNothing | src/components/TaskForm.tsx:23 | a whitespace-only title submits nothing |
| TaskForm.SubmittedFieldsTrimmed | src/components/TaskForm.tsx:25-31 | the dispatched task has the trimmed, non-empty title, the description and goal as `TrimmedOrNone` makes them, the chosen importance and the deadline |
| TaskForm.EditKeepsIdentity | src/components/TaskForm.tsx:33-37 | editing keeps the task's id, completion state and creation time; a blanked description or goal becomes absent |
| TaskForm.NewTaskIsOpen | src/components/TaskForm.tsx:38-45 | a new task is open, has no completion time, and takes its id and creation time from the clock |
| TaskForm.Form.constructor | src/components/TaskForm.tsx:15-19 | the fields start from the edited task, or empty with importance 'Steady' |
| TaskForm.Form.HandleClose | src/components/TaskForm.tsx:51-58 | closing empties every field and resets importance to 'Steady' |
| TaskForm.Form.HandleSubmit | src/components/TaskForm.tsx:21-49 | submitting dispatches `SubmitAction` of the fields; a blank title leaves the form as it was, a dispatch resets it |
| StreakCalendar.Window | src/components/StreakCalendar.tsx:10-21 | the calendar shows 30 days |
| StreakCalendar.GetDaysArray | src/components/StreakCalendar.tsx:10-21 | the loop from 29 down to 0 builds exactly the 30-day window ending today |
| StreakCalendar.WindowShape | src/components/StreakCalendar.tsx:10-21 | the window ends on today and holds consecutive ascending days; a day is in it exactly when it is at most 29 days before today and not after it |
| StreakCalendar.ExactlyOneToday | src/components/StreakCalendar.tsx:33-35 | exactly the last cell is highlighted as today |
| StreakCalendar.MarkedIff | src/components/StreakCalendar.tsx:24-31 | a day is marked exactly when some completed task has a completion time that day, whatever that time is (the epoch included, as an ISO date string is always truthy); other tasks never change that, and an empty list marks nothing |
| StreakCalendar.ToggleMarksToday | src/components/StreakCalendar.tsx:24-31 | completing an open task at any clock reading marks today's cell |
| Header.DisplayName | src/components/Header.tsx:13 | the greeting uses the user's name, or 'there' when it is empty; never an empty name |
| Header.GreetingPartition | src/components/Header.tsx:11-24 | the greeting kind is morning for hours 5-11, afternoon for 12-16, evening for 17-21 and night otherwise |
| Header.GreetingNamesUser | src/components/Header.tsx:11-24 | the greeting text ends with the displayed name, followed by '!' in the morning and afternoon only; an empty name is shown as 'there' |
| Header.StreakBadge | src/components/Header.tsx:27 | after a completion that raises the achievement flag the header shows the streak badge (`currentStreak >= streakGoal`); a streak already at or past the goal that grows by a day keeps the badge without raising the flag again |
| FilterSort.ClearButton | src/components/FilterSort.tsx:81-91 | the clear button shows exactly when a filter is active, and sets all three keys to 'all' |
| FilterSort.FilterChangeSetsOneKey | src/components/FilterSort.tsx:11-16 | a select change sets its key to the chosen value and leaves the other keys, the tasks and the user data unchanged |
| FilterSort.EveryKeyAllClears | src/components/FilterSort.tsx:11-21 | choosing 'all' in the three selects, one at a time, leaves no filter active |
| FilterSort.ClearAllClears | src/components/FilterSort.tsx:81-91 | after 'Clear All Filters' no filter is active and the tasks and user data are unchanged |
| WelcomeModal.SavedName | src/components/WelcomeModal.tsx:16 | the saved name is the trimmed name, or 'Champion' when the name is blank; never empty |
| WelcomeModal.CompleteSetsProfile | src/components/WelcomeModal.tsx:12-22 | completing stores the saved name and the goal, marks the welcome seen and hides the dialog; the tasks and the other user data are unchanged |
| WelcomeModal.Dialog.constructor | src/components/WelcomeModal.tsx:7-8 | the dialog starts with an empty name and a goal of 7, one of the offered goals |
| WelcomeModal.Dialog.SetName | src/components/WelcomeModal.tsx:7 | typing sets the name and keeps the goal, so the goal stays one of the offered goals |
| WelcomeModal.Dialog.ChooseGoal | src/components/WelcomeModal.tsx:59-62 | a goal button sets one of the offered goals 3, 7, 14 or 30 and keeps the name |
| WelcomeModal.Dialog.HandleComplete | src/components/WelcomeModal.tsx:12-22 | two actions: a user-data patch setting exactly the saved name, the goal, which is one of the offered goals, and `hasSeenWelcome`, then hiding the dialog |
| ChatTypes.KeyCount | api/chat.js:42 | every key counts, the six the clients send and any others; a body has no keys exactly when it is the empty object |
| ChatTs.MessageOrder | api/chat.ts:58-72 | the provider messages are: the system prompt when truthy, the task context when a non-empty list, the conversation unchanged and in order, then the user message |
| ChatTs.BuildMessages | api/chat.ts:58-72 | the pushes build exactly that message list |
| ChatTs.ModelChoice | api/chat.ts:75-82 | a URL containing 'groq' gets the configured Groq model or 'llama3-8b-8192', even if it also contains 'deepseek'; otherwise 'deepseek' gets the configured DeepSeek model or 'deepseek-chat'; any other URL gets 'default-model' |
| ChatTs.ServiceRequest | api/chat.ts:84-92 | the provider request goes to the given URL with the given key, the chosen model, temperature 0.7, 300 tokens, top-p 1 and no streaming |
| ChatTs.ServiceReply | api/chat.ts:94-127 | an answer is accepted exactly when the status is ok, the body is JSON and it has a truthy content or reply; the content wins over the reply; a non-ok status throws with that status |
| ChatTs.ProxyToService | api/chat.ts:34-127 | `proxyToService` sends `ServiceRequest` and returns `ServiceReply` of the answer |
| ChatTs.Handler | api/chat.ts:129-230 | OPTIONS gets 200, other non-POST methods 405, a POST without a truthy userMessage 400; otherwise Groq is asked first when configured, then DeepSeek when configured; 200 with the first reply and its provider, or 502 with the configuration or unavailability error |
| ProviderClient.Send | src/api/chat/groq.js:12-78 | a request is sent exactly when URL and key are set, carrying the client's payload unchanged; the URL is checked before the key; a non-ok status throws with the status and the body text; success has a non-empty reply |
| ProviderClient.SendSucceedsIff | src/api/chat/deepseek.js:12-65 | a send succeeds exactly when URL and key are set, the status is ok and the JSON body has a truthy reply or content; the reply wins |
| ProviderClient.HttpFailureMessage | src/api/chat/groq.js:37-41 | the error for a non-ok status names the provider, the status and the body text |
| ChatJs.Handler | api/chat.js:20-70 | OPTIONS gets 200, other non-POST methods 405, a POST with a missing body or one without keys 400; any other body, a provider-shaped `{model, messages}` one included, goes unchanged to Groq, then DeepSeek; 200 with the first reply, or 502 |
| AiChat.FormatTaskShape | api/ai-chat.js:44-51 | a context task renders as its quoted title, then importance and status, then the goal exactly when it is truthy |
| AiChat.JoinSnoc | api/ai-chat.js:51 | joining keeps the list order |
| AiChat.FormatContextTwo | api/ai-chat.js:44-51 | two tasks render as their descriptions joined by ', ' after the 'Current tasks: ' prefix |
| AiChat.MessageOrder | api/ai-chat.js:36-65 | the messages are: the system message always, the task context exactly when non-empty, the conversation reduced to role and content in order, then the user message |
| AiChat.BuildMessages | api/ai-chat.js:36-65 | the pushes build exactly that message list |
| AiChat.Answer | api/ai-chat.js:72-104 | an attempt answers exactly when the status is ok, the body is JSON and its content is truthy |
| AiChat.Handler | api/ai-chat.js:1-156 | OPTIONS gets 200, non-POST 405, a missing body 500, a falsy userMessage 400, no keys 500; otherwise Groq when its key is set, then DeepSeek when its key is set and Groq gave nothing; 200 with the answer and provider, or 500 |
| Placeholders.PreviewSpec | api/groq.js:58 | a message of at most 60 characters is quoted whole; a longer one is cut to 60 characters plus '...' |
| Placeholders.PreviewDistinguishes | api/deepseek.js:49 | two messages of any length get the same quote exactly when they agree on their first 60 characters and both or neither are longer than 60; so messages that differ within their first 60 characters get different quotes |
| Placeholders.RepliesQuote | api/groq.js:58 | each placeholder reply is its fixed prefix, the quote and its fixed closing text |
| Placeholders.ReadBody | api/groq.js:34-37 | the `data` handler accumulates the chunks in arrival order |
| Placeholders.GroqRespond | api/groq.js:13-70 | OPTIONS gets 200, non-POST 405 naming the method; a POST gets either the simulated 500 or 200 with the reply, never both; an unparsable body or a missing userMessage gets 500 |
| Placeholders.DeepSeekRespond | api/deepseek.js:6-61 | OPTIONS gets 200, non-POST 405 naming the method; a POST gets 200 with the reply exactly when it has a userMessage, and 500 otherwise |
| Placeholders.GroqHandler | api/groq.js:13-70 | the handler writes `GroqRespond` of the parsed, concatenated body |
| Placeholders.DeepSeekHandler | api/deepseek.js:6-61 | the handler writes `DeepSeekRespond` of the parsed, concatenated body |
| Script.LastN | script.js:133 | `slice(-n)` keeps at most n entries, and they are the last ones |
| Script.LastNSnoc | script.js:83-87 | push-then-cut keeps at most n entries, ends with the new one, and drops only the oldest |
| Script.UserTurn | script.js:83-87 | after a message is stored, the history holds 1 to 20 entries and ends with it |
| Script.HintIndex | script.js:144 | `find` stops at the first task whose title matches, or past the end |
| Script.TaskHintSpec | script.js:144-152 | a hint is sent exactly when some title occurs in the message, ignoring case, and it describes the first such task; an empty title matches every message |
| Script.Describe | script.js:125-130 | a task is described by title, goal and importance, with status 'completed' or 'pending' |
| Script.PayloadShape | script.js:124-141 | the payload carries the system prompt exactly on a first call, every task in order, at most 20 history entries ending with the new message, and the message |
| Script.ClientReply | script.js:157-172 | the page takes an answer exactly when the status is ok, the body is JSON and its reply is truthy |
| Script.ReplyEntry | script.js:189-209 | the stored assistant entry is the Groq reply, else the DeepSeek reply, else the apology marked as an error; it is an error exactly when neither replied |
| Script.PlaceholdersAnswerPage | script.js:157-198 | the placeholder endpoints answer every payload the page sends, quoting the message, unless the Groq one simulates a failure |
| Script.ChatSession.constructor | script.js:121 | the page starts with no history and the first-call flag set |
| Script.ChatSession.Push | script.js:203-214 | a push keeps the last 20 entries and changes nothing else |
| Script.ChatSession.BuildPayload | script.js:124-152 | the payload object is built field by field as `PayloadFor` |
| Script.ChatSession.GetAiResponse | script.js:122-218 | Groq is asked first, DeepSeek with the same payload only when Groq failed; one assistant entry is stored; the first-call flag clears exactly when a reply came back |
| Script.ChatSession.HandleSendMessage | script.js:75-105 | a blank message does nothing; otherwise the trimmed message and then one assistant entry are stored, the history stays within 20 entries, and the requests and flag follow `GetAiResponse` |
| Chatbox.RequestBody | src/components/Chatbox.tsx:49-51 | the panel's body has the single key `message` |
| Chatbox.ReplyText | src/components/Chatbox.tsx:54-76 | the assistant text is a truthy `response` of an ok JSON answer, the could-not-process text for another ok JSON answer, and the connection apology otherwise |
| Chatbox.PlaceholderRejectsPanel | src/components/Chatbox.tsx:44-76 | the `/api/deepseek` endpoint answers every panel request with 500, so the panel shows the connection apology |
| Chatbox.Panel.constructor | src/components/Chatbox.tsx:18-20 | the panel starts with no messages, an empty input and no request pending |
| Chatbox.Panel.SetInput | src/components/Chatbox.tsx:158 | typing sets the input and nothing else |
| Chatbox.Panel.SendMessage | src/components/Chatbox.tsx:29-52 | a blank input or a pending request changes nothing and sends nothing; otherwise the untrimmed input is appended as a user message, the input is cleared, loading starts and `{message}` is posted |
| Chatbox.Panel.ReceiveReply | src/components/Chatbox.tsx:54-79 | one assistant message with `ReplyText` of the answer is appended and loading stops |
| Chatbox.Panel.SendAndReceive | src/components/Chatbox.tsx:29-80 | an accepted send appends exactly two messages, the user's then the assistant's, and ends idle with an empty input |

## Left out

- Time zones and daylight saving: a day is `ms / 86400000` of a local clock reading. `toDateString` comparisons and the `today` and `tomorrow` midnights follow that.
- Parsing of date strings: deadlines and completion times are clock readings. An invalid date (NaN) is not modelled.
- Case folding is ASCII only (`toLowerCase` in `script.js`). Full Unicode case mapping is not modelled.
- `JSON.stringify` of the task context in `api/chat.ts` is the parameter `stringify`. Parsing request bodies is the parameter `parse` of the placeholders. A body that parses to something other than an object is not distinguished from one that does not parse.
- Runtime errors inside the handlers, other than those the source itself raises or catches, are not modelled. Neither are logging, CORS headers and `Allow` headers.
- `Partial<AppState>` in LOAD_DATA covers the fields the app loads. Persistence to `localStorage` and the hourly auto-delete timer (`src/contexts/AppContext.tsx:179-212`) are I/O. The `autoDelete` setting gates only that timer; the reducer itself ignores it.
- Uniqueness of task ids is not enforced, as in the source. UPDATE_TASK replaces every task with the id. TOGGLE_TASK flips the first task with the id and writes that copy over every task with the id.
- Rendering, animations, scrolling, focus and the `setTimeout` delay before a toggle are not modelled.
- Props such as `isOpen` and `onClose` are not modelled.
- The placeholders' missing-key warning is not modelled, because it does not change the response.
- Keys of a request body other than the six the clients send are modelled by their number only (`ChatPayload.otherKeys`). `api/chat.js` counts and forwards them, and no endpoint reads them.
- Placeholders.PreviewSpec: lengths and the 60-character cut count Unicode code points, because a `string` here is a sequence of characters. JavaScript's `length` and `substring(0, 60)` count UTF-16 code units, so a message with characters outside the Basic Multilingual Plane (emoji, say) is cut earlier by the source, possibly inside a surrogate pair. For other messages the two agree.
- The `details` text (the caught error's message) in the placeholders' internal-error 500 body is not modelled; the body carries only its `error` string.
- `Math.random()` in `api/groq.js` is the parameter `simulateFailure`.
- `Date.now()` in `Chatbox.tsx` and `TaskForm.tsx` is a clock parameter. The two readings of one chat send are independent parameters. The reducer's clock reads in one TOGGLE_TASK (the completion stamp, 'today' and 'yesterday', `src/contexts/AppContext.tsx:72`, `:89`, `:99`) are one reading `now`, so a toggle that straddles midnight is not modelled.
- Interleaving of concurrent sends is not modelled. `Chatbox` splits a send at its `await`, and `Script` runs a send to completion.
- React's `useState` initialisers in `TaskForm.tsx` run once per mount. `TaskForm.Form.constructor` models one mount. A form reused for another task keeps its old fields, and that is not modelled.
- Types.CompletionConsistent: the source does not enforce it. It is proved preserved for valid actions (`AppReducer.ReducePreservesValid`), not for arbitrary payloads.
