# chatlive core, modelled in Dafny

chatlive is a client-side chat simulator with three parts:

- An operator keeps a list of chats, each with a plan of scheduled messages. Each message has a sender name, a text and a delay in seconds.
- A live page replays a chat's plan. It arms one `setTimeout` per planned message, and each timer appends its message to the transcript. The visitor can type messages of their own at any time.
- The scheduler keeps its own plan per chat, and can export a standalone HTML page whose script replays that plan. Given the same plan, the exported script and the live page emit it in the same order.

This project models the handlers behind these three parts and proves what they promise.

Modules:

- `Wrappers`: the `Option` type.
- `Text`: JavaScript's `String.prototype.trim`, with its whitespace set written out.
- `ChatTypes`: the records `Chat`, `ScheduledMessage` and `Message`, plus the `(name, text)` lines a transcript shows.
- `Timeouts`: how `delay * 1000` becomes the timeout a timer waits for.
  - The timeout argument of `setTimeout` is a WebIDL `long`, so the product is reduced modulo 2^32 into the signed range.
  - The timer initialization steps of section 8.6 (Timers) of the WHATWG HTML Living Standard then raise a negative timeout to 0.
  - NaN becomes 0.
- `Seqs`: `Array.prototype.filter`.
- `Ordering`: ordering entries by that timeout.
  - A stable sort is specified by two conditions: the result is sorted, and each group of equal timeouts keeps its plan order.
  - The specification is proved to determine the result.
  - An insertion sort, `SortByTimeout`, is the reference definition.
- `TimerQueue`: the timers still pending, as `(due, arm order, entry)` triples.
  - The next timer to run is the one with the smallest `(due, arm order)`. Per section 8.6 of the HTML standard, a timer waits for every timer armed before it whose timeout is equal or smaller.
  - Main theorem: running every timer of one run emits exactly `SortByTimeout(plan)`.
- `Panel`: the control panel (app/painel-controle/page.tsx).
  - Pure functions compute the new lists.
  - A class `ControlPanel` holds `chats`, `editingChat` and `newMessage`, and its handlers overwrite those fields.
- `Scheduling`: the message scheduler (components/message-scheduler.tsx).
  - A class `MessageScheduler` models the form, per-index deletion and the start-button rule.
  - A class `ExportedChat` models the exported page's script: the `forEach` that arms the timers, the timer step, and the submit listener.
  - Its invariant `Valid` ties the page to the plan. Each shown line carries a ghost mark saying whether a timer or the visitor put it there. The timer-marked lines are the lines of the entries emitted so far, and those entries followed by what the pending timers will emit are `SortByTimeout(plan)`.
- `Playback`: the live chat (components/live-chat.tsx).
  - A class `LiveChat` holds the transcript, the form fields, the pending timers and how many timers it has armed.
  - Its methods model the mount effect, `startSimulation`, the timer callback and `handleSendMessage`.
  - Its invariant `Valid` (the predicate `Playback.Consistent`) works the same way on the transcript `messages`. A ghost `schedule` holds the entries emitted since the last start followed by what the pending timers will emit; in a run started with nothing pending, it is the sorted plan.

Inputs the model takes as parameters:

- `Date.now()` ids and timestamps are method parameters.
- `parseInt` is either a parameter of type `string -> Delay` or its result (`Delay` is `Seconds(n) | NaN`).
- The current time at which a run is armed is a parameter.
- A stored list read from `localStorage` is an `Option` parameter.

Where the system's specification and the code disagree, the model follows the code:

- The specification says restarting playback cancels the previous run's timers. The code never calls `clearTimeout`, and the mount effect returns no cleanup. In the model, `LiveChat.StartSimulation` appends the new run behind whatever is still pending, and `TimerQueue.StaleTimersStillFire` shows the stale entries are still emitted.
- The specification says a delay must be a non-negative integer. The code only checks that the delay field is non-blank, and stores `parseInt` of it (possibly NaN or negative). The panel's draft delay is not checked at all.
  - The model keeps these values.
  - A NaN delay, and any delay in [-2147483, 0] or [2147484, 4294967] seconds, gives timeout 0. `Timeouts.TimeoutWrapsPastMaxExact` shows the first wrap.
  - Delays of larger magnitude wrap around the 32-bit `long` again, to other timeouts, some of them positive. `Timeouts.TimeoutWrapsAroundAgain` shows two.
- The specification says the live page plays the plan the scheduler built, merged into the chat record. The code never merges them. The scheduler saves its plan under its own `localStorage` key, `scheduledMessages_<chatId>` (components/message-scheduler.tsx:23, 30), and its start button only navigates (components/message-scheduler.tsx:54). The live page replays `chat.messages` from the stored `chats` list (components/live-chat.tsx:31-37), which only the control panel writes (app/painel-controle/page.tsx:30). In the model, `MessageScheduler` and `LiveChat` share no state. Their shared property is stated for a given plan (`Scheduling.ExportedReplayMatchesLive`).
- The specification gives every added entry a unique id. The scheduler's `handleSubmit` builds entries without an id, which is why `ScheduledMessage.id` is an `Option`. The panel's ids come from the clock and are not unique.

## Model

| member | source | states |
|---|---|---|
| Text.Trim | app/painel-controle/page.tsx:35 | `trim` gives the empty string exactly when the input is all whitespace. Otherwise the result is the input with its leading and trailing whitespace removed, and it starts and ends with a non-whitespace character. |
| Text.TrimOfPadded | app/painel-controle/page.tsx:39 | Trimming whitespace + core + whitespace gives back the core when the core starts and ends with non-whitespace. |
| Text.TrimIdempotent | components/message-scheduler.tsx:97 | Trimming twice is trimming once. |
| Timeouts.ToLong | components/live-chat.tsx:70 | The WebIDL `long` conversion lands in [-2^31, 2^31), agrees with its input modulo 2^32, and is the identity on that range. |
| Timeouts.TimeoutMs | components/live-chat.tsx:70 | The timeout lies in [0, 2^31). It is 0 for NaN and for delays in [-2147483, 0] and [2147484, 4294967], and exactly `delay * 1000` for delays in [0, 2147483]. |
| Timeouts.TimeoutMonotone | components/live-chat.tsx:70 | Within the exact range, a longer delay gives a strictly longer timeout. |
| Timeouts.TimeoutWrapsPastMaxExact | components/message-scheduler.tsx:107 | A delay of 2147484 seconds wraps to a negative `long`, so its timer is due at once. |
| Timeouts.TimeoutWrapsAroundAgain | components/live-chat.tsx:70 | Larger delays wrap again: 4294968 seconds waits 704 ms, and -2147484 seconds waits 2147483296 ms. |
| Seqs.Filter | app/painel-controle/page.tsx:64 | `filter` keeps exactly the elements that pass the test, and the result is no longer than the input. |
| Seqs.FilterAppend | app/painel-controle/page.tsx:80 | Filtering distributes over concatenation, so the kept elements stay in their order. |
| Ordering.StableSortUnique | components/live-chat.tsx:61-71 | Two sequences that are both stable sorts of one plan by timeout are equal. |
| Ordering.SortByTimeoutCorrect | components/live-chat.tsx:61-71 | The reference insertion sort is a stable sort by timeout, ties in plan order, and a permutation of the plan. |
| Ordering.StableSortIsReferenceSort | components/live-chat.tsx:61-71 | Any stable sort of the plan is the reference sort, and a permutation of the plan. |
| Ordering.InRangeSortIsBySeconds | components/live-chat.tsx:70 | When every delay lies in [0, 2147483] seconds, the sorted plan is ordered by delay in seconds. |
| Ordering.SortShortestDelayFirst | components/live-chat.tsx:61-71 | Delays 2, 0, 1 are sorted as 0, 1, 2. |
| Ordering.SortEqualDelaysKeepPlanOrder | components/live-chat.tsx:61-71 | Two equal delays keep their plan order, ahead of a longer delay listed first. |
| TimerQueue.NextIndex | components/live-chat.tsx:61-71 | The chosen timer is pending, and no pending timer runs before it. Among timers numbered in arm order, it runs strictly before every other timer. |
| TimerQueue.Armed | components/live-chat.tsx:61-70 | One run arms one timer per entry. The timers keep plan order and arm order, each is due at the arm time plus its entry's timeout, and their entries are exactly the plan. |
| TimerQueue.ArmAll | components/message-scheduler.tsx:104-108 | The `forEach` loop arms exactly `Armed(now, base, plan)`. |
| TimerQueue.ArmBehind | components/live-chat.tsx:61-71 | A run armed behind pending timers, numbered past them, keeps the pending list in arm order. |
| TimerQueue.EveryPendingTimerFires | components/message-scheduler.tsx:104-108 | Running every pending timer emits each pending entry exactly once: the emitted sequence is a permutation of the pending entries. |
| TimerQueue.NextHasSmallestKey | components/live-chat.tsx:61-71 | Within one run, the next timer's entry has the smallest timeout, and every entry armed before it has a strictly larger one. |
| TimerQueue.DrainIsStableSort | components/live-chat.tsx:61-71 | Running every timer of one run emits the entries stably sorted by timeout, ties in arm order. |
| TimerQueue.OneRunEmitsSortedPlan | components/live-chat.tsx:61-71 | A full run over a plan emits exactly `SortByTimeout(plan)`, a permutation of the plan, whatever the arm time and numbering. |
| TimerQueue.ReplayIndependentOfArmTime | components/live-chat.tsx:61-71 | The emitted order does not depend on when the run was armed or on how its timers are numbered. |
| TimerQueue.StaleTimersStillFire | components/live-chat.tsx:30-40 | With no cancellation, arming a run behind stale timers emits both the stale entries and the new plan. |
| TimerQueue.ExampleShortestDelayFirst | components/live-chat.tsx:61-71 | Entries with delays 2, 0, 1 appear in the order 0, 1, 2. |
| TimerQueue.ExampleEqualDelaysKeepPlanOrder | components/live-chat.tsx:61-71 | Entries with equal delays appear in plan order. |
| ChatTypes.Lines | components/message-scheduler.tsx:88-91 | The lines of a plan: one per entry, its name and text, in order. |
| ChatTypes.Shown | components/live-chat.tsx:63-69 | The lines of a transcript: one per message, its name and text, in order. |
| ChatTypes.LinesAt | components/message-scheduler.tsx:88-91 | The `i`-th line of a plan is its `i`-th entry's name and text. |
| ChatTypes.ShownAt | components/live-chat.tsx:63-69 | The `i`-th line of a transcript is its `i`-th message's name and text. |
| ChatTypes.LinesSnoc | components/message-scheduler.tsx:105-107 | Showing one more entry adds its line last. |
| ChatTypes.ShownSnoc | components/live-chat.tsx:69 | Appending one more message adds its line last. |
| ChatTypes.PickedSnoc | components/live-chat.tsx:69 | One more line joins the timer-marked lines exactly when it is marked. |
| ChatTypes.PickedAll | components/live-chat.tsx:57-71 | When every line is timer-marked, the timer-marked lines are all the lines. |
| ChatTypes.TimerMessageExtends | components/live-chat.tsx:62-69 | A timer's message adds its entry's line to the timer-marked lines. |
| ChatTypes.VisitorMessageKeeps | components/live-chat.tsx:53 | A visitor's message leaves the timer-marked lines unchanged. |
| Panel.WithNewChat | app/painel-controle/page.tsx:35-43 | A blank name leaves the list unchanged. Otherwise the list grows by exactly one, earlier chats are unchanged, and the last chat has the new id, the trimmed name and an empty plan. |
| Panel.ReplaceChat | app/painel-controle/page.tsx:55-57 | The length and the id sequence are preserved. Every chat with the edited id becomes the edited chat, and every other chat is unchanged. |
| Panel.WithoutChat | app/painel-controle/page.tsx:64 | The result holds exactly the chats whose id differs. An absent id leaves the list unchanged. |
| Panel.WithoutMessage | app/painel-controle/page.tsx:80 | The result holds exactly the entries whose id differs. An id no entry has leaves the plan unchanged. |
| Panel.CreateThenDeleteRestores | app/painel-controle/page.tsx:33-66 | Creating a chat under a fresh id and then deleting that id restores the list. |
| Panel.DeleteChatKeepsOrder | app/painel-controle/page.tsx:64 | Deletion distributes over concatenation, so the remaining chats keep their order. |
| Panel.DeleteMessageKeepsOrder | app/painel-controle/page.tsx:80 | Removing a message id distributes over concatenation, so the kept entries keep their plan order. |
| Panel.DeleteChatIdempotent | app/painel-controle/page.tsx:64 | Deleting an id twice is deleting it once. |
| Panel.ReplaceChatIdempotent | app/painel-controle/page.tsx:55-57 | Saving the same edited chat twice changes nothing the second time. |
| Panel.AddThenRemoveMessageRestores | app/painel-controle/page.tsx:68-82 | Adding a draft under a fresh id and then removing that id restores the plan. |
| Panel.DeleteMessageIdempotent | app/painel-controle/page.tsx:80 | Removing a message id twice is removing it once. |
| Panel.ControlPanel.constructor | app/painel-controle/page.tsx:16-19 | Starts with no chats, an empty name, no chat being edited, and the empty draft (delay 0). |
| Panel.ControlPanel.Load | app/painel-controle/page.tsx:21-26 | Adopts the stored list when there is one, and otherwise keeps the current list. |
| Panel.ControlPanel.TypeChatName | app/painel-controle/page.tsx:96 | Sets the new chat's name field. |
| Panel.ControlPanel.CreateChat | app/painel-controle/page.tsx:33-45 | The list becomes `WithNewChat`. The name field is cleared only when the create succeeds. |
| Panel.ControlPanel.EditChat | app/painel-controle/page.tsx:47-49 | The dialog edits a copy of the chat. |
| Panel.ControlPanel.RenameEditing | app/painel-controle/page.tsx:144 | Renames the copy being edited, untrimmed. With no copy, nothing changes. |
| Panel.ControlPanel.UpdateChat | app/painel-controle/page.tsx:51-61 | Rejected, with no change, when there is no copy or its name is blank. Otherwise the stored list becomes `ReplaceChat` of the copy, and the edited copy is discarded (`editingChat` becomes `None`). |
| Panel.ControlPanel.DeleteChat | app/painel-controle/page.tsx:63-66 | The list becomes `WithoutChat`. |
| Panel.ControlPanel.TypeDraftName | app/painel-controle/page.tsx:164 | Sets only the draft's name. |
| Panel.ControlPanel.TypeDraftText | app/painel-controle/page.tsx:169 | Sets only the draft's text. |
| Panel.ControlPanel.TypeDraftDelay | app/painel-controle/page.tsx:175 | Sets only the draft's delay, to `parseInt` of the field, unchecked. |
| Panel.ControlPanel.AddMessage | app/painel-controle/page.tsx:68-75 | Rejected, with no change, without a copy or with a blank draft name or text. Otherwise the draft, under the fresh id, is appended last to the copy's plan, the draft is reset, and the stored list is untouched. |
| Panel.ControlPanel.DeleteMessage | app/painel-controle/page.tsx:77-82 | The copy's plan becomes `WithoutMessage`, and the stored list is untouched. |
| Scheduling.RemoveAt | components/message-scheduler.tsx:50 | An index inside the plan removes exactly that entry and keeps the others in order. An index outside the plan leaves it unchanged. |
| Scheduling.SubmitThenDeleteLastRestores | components/message-scheduler.tsx:43-50 | Deleting the entry just appended, at the last index, restores the plan. |
| Scheduling.ExportedReplayMatchesLive | components/message-scheduler.tsx:104-108 | Given the same plan, the exported script and the live chat emit it in the same order, whenever the live chat arms it: the reference sort by timeout. |
| Scheduling.MessageScheduler.constructor | components/message-scheduler.tsx:17-20 | Starts with an empty plan and empty fields. |
| Scheduling.MessageScheduler.Load | components/message-scheduler.tsx:22-27 | Adopts the stored plan for this chat when there is one. |
| Scheduling.MessageScheduler.TypeName | components/message-scheduler.tsx:134 | Sets the name field. |
| Scheduling.MessageScheduler.TypeMessage | components/message-scheduler.tsx:141 | Sets the message field. |
| Scheduling.MessageScheduler.TypeDelay | components/message-scheduler.tsx:149 | Sets the delay field. |
| Scheduling.MessageScheduler.Submit | components/message-scheduler.tsx:33-47 | Rejected, with no change, if any field is blank after trim. Otherwise one id-less entry is appended last, with the untrimmed name and text and `parseInt` of the delay, and the fields are cleared. |
| Scheduling.MessageScheduler.DeleteMessage | components/message-scheduler.tsx:49-51 | The plan becomes `RemoveAt(plan, index)`. |
| Scheduling.MessageScheduler.StartEnabled | components/message-scheduler.tsx:191-194 | The start button is enabled exactly when the plan is non-empty. |
| Scheduling.ExportedChat.constructor | components/message-scheduler.tsx:104-108 | The script arms one timer per entry at time 0, in plan order. Nothing is shown yet, and the pending timers drain to `SortByTimeout(plan)`. Establishes `Valid`. |
| Scheduling.ExportedChat.Type | components/message-scheduler.tsx:78 | Sets the text box. |
| Scheduling.ExportedChat.Submit | components/message-scheduler.tsx:95-102 | A blank input changes nothing. Otherwise the line ('Você', trimmed text) is appended last, marked as the visitor's, and the box is cleared. Keeps `Valid`: the timers' lines on the page are unchanged. |
| Scheduling.ExportedChat.FireNext | components/message-scheduler.tsx:105-107 | The earliest pending timer runs and its line is appended last. Keeps `Valid`: the entries emitted so far, followed by what the remaining timers will emit, are `SortByTimeout(plan)`, and the timer-marked lines of `shown` are the emitted entries' lines. Once nothing is pending, the timer-marked lines of `shown` are the lines of the sorted plan; if the visitor typed nothing, `shown` itself is. |
| Playback.FindChat | components/live-chat.tsx:34 | `find` returns the first chat with the id: none exactly when no chat has it. |
| Playback.StartConsistent | components/live-chat.tsx:57-71 | Clearing the transcript and arming the plan behind arm-ordered stale timers sets up the page invariant. With no stale timers, the schedule is `SortByTimeout(plan)`. |
| Playback.FireStepConsistent | components/live-chat.tsx:62-70 | Running the earliest timer and appending its message keeps the page invariant. |
| Playback.FinishedRunShown | components/live-chat.tsx:57-71 | When a run started with nothing pending has finished, the timer-marked lines of the transcript are the lines of the sorted plan; with no visitor message, the whole transcript is. |
| Playback.LiveChat.constructor | components/live-chat.tsx:15-19 | Starts with no chat, an empty transcript, empty fields, not simulating, and no timers. |
| Playback.LiveChat.StartSimulation | components/live-chat.tsx:57-72 | Sets simulating and empties the transcript. Arms one timer per entry behind the still-pending ones, due at `now` plus its timeout, numbered after every earlier timer. Needs only the pending timers in arm order, and establishes `Valid`. With nothing pending before, the timers drain to `SortByTimeout(plan)`. |
| Playback.LiveChat.Mount | components/live-chat.tsx:30-40 | Without a stored list or a chat with this id, nothing changes, including the ghost record of emitted entries and the schedule. Otherwise that first matching chat is shown and its plan starts, its timers numbered after every earlier timer and the count advanced by the plan length. On a page with no pending timers, the run will emit its sorted plan. Keeps `Valid`. |
| Playback.LiveChat.FireNext | components/live-chat.tsx:62-70 | The earliest pending timer runs and appends a message with its entry's name and text, last, marked as a timer's. Keeps `Valid`, whose `schedule` (emitted-so-far plus still-to-come) the method cannot change. Once the last timer of a run started with nothing pending has fired, the timer-marked lines of `messages` are the lines of the sorted plan; if the visitor sent nothing, all of `messages` shows exactly that. |
| Playback.LiveChat.TypeName | components/live-chat.tsx:95 | Sets the name field. |
| Playback.LiveChat.TypeMessage | components/live-chat.tsx:100 | Sets the message field. |
| Playback.LiveChat.SendMessage | components/live-chat.tsx:42-55 | Rejected, with no change, if the name or message is blank after trim. Otherwise one message with the untrimmed name and text is appended last, marked as the visitor's, the message field is cleared, and the name is kept. Keeps `Valid`: the timers' lines in the transcript are unchanged. |

## Left out

- Persistence: reading and writing `localStorage` and the JSON around it. A stored list is an `Option` parameter of `Load` and `Mount`. The effect that writes the scheduler's plan on every change is not modelled.
- JSON round trip in the exported page: the plan is embedded with `JSON.stringify`, which turns a NaN delay into `null`. `null * 1000` is 0, the same timeout the model gives NaN, so the replay order is unaffected. The text itself is not modelled.
- ExportedChat: follows the script as evidently intended, not the file as written. In components/message-scheduler.tsx the template literal opened at line 58 is closed by the unescaped backtick at line 90, so the file as written does not parse. Had only the two backticks at line 90 been escaped, `${name}` would be filled in from the scheduler's `name` field (line 18) at export time, and `${text}` would name nothing in scope. The model's `shown` lines are the intended `name: text` of each timer's entry and of the visitor's input.
- The HTML template, its styling, and the Blob/anchor download of `generateHtml`. These are string templating and browser I/O. Only the script's replay and submit behaviour is modelled.
- Rendering, auto-scrolling and the dialog open/close state. These are presentation only. Nothing closes the edit dialog after a save: it stays open with an empty name field and no entries.
- Form wiring: the panel's "Remover" button sits inside the edit form and the button component is not part of this model, so whether a click there also submits the form is not modelled. Each handler is modelled on its own.
- Routing: `router.push` behind the start button and the page wrappers. Only the button's enable rule is modelled.
- The clock: `Date.now()` ids and timestamps are parameters. Id uniqueness is not claimed.
- Number parsing: `parseInt` is an input. `Delay` holds an unbounded integer or NaN. Double precision beyond 2^53 and an infinite `parseInt` result are not represented.
- Real time and the event loop: the model orders timers by (due time, arm order) and steps one timer at a time. Visitor messages may be interleaved between steps by calling `SendMessage` or `Submit`. Wall-clock waiting and timer throttling are not modelled.
- Arm order numbers are a model device (`armedCount`). A browser orders timers by when they were started.
- Monotone arm times: `LiveChat.StartSimulation` takes `now` as a free parameter and does not require it to be at least the previous run's. Ordering by (due time, arm order) matches the rule of section 8.6 of the HTML standard only when arm times never decrease, as a real clock's do. No proved property depends on it: stale runs are only claimed as a multiset (`TimerQueue.StaleTimersStillFire`), and a run's own order is proved for one arm time.
- React's state batching: each handler is modelled as one atomic update of the fields it sets.
