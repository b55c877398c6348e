# Productive Pomodoro: the logic behind the study rooms

This Dafny project models the parts of the Productive Pomodoro application whose behaviour
can be stated precisely, and proves properties of them:

- the socket server's room relay (`JOIN_ROOM`, `TIMER_START`, `TIMER_PAUSE`, `TIMER_TICK`,
  `EMOJI_SEND`, `disconnect`): membership and what each connection receives;
- the two countdown components (the page timer's state machine and the presentational
  digital timer) and their shared `MM:SS` formatting;
- the task list, the focus-group chat and the participant avatar strip;
- the three client forms (login / sign-up, join a room, create a room);
- the server's room-creation schema (Joi), the Mongoose room document with its setters,
  validators, pre-save hooks, `comparePassword` and `toJSON`;
- room-code generation, and the `createRoom` and `verifyRoomPassword` request handlers.

One module per source file, plus:

- `Js`: the JavaScript semantics the code relies on, such as truthiness, property reads,
  `trim`, ASCII case mapping, number-to-string conversion and `padStart`;
- `Clock`: the `MM:SS` formatter that both timer components define identically;
- `RoomCode`: the code generator, which the source writes out three times with the same
  alphabet and loop;
- `RoomCreationFlow`: compares what the create-room form, the request schema and the room
  document each accept.

State that the source updates step by step is modelled as classes. This covers React state
hooks, the relay's membership and delivery log, and the Mongoose document. Their methods
are proved against pure functions of the old state. Clocks, ids, `Math.random()`, database
answers and bcrypt are parameters.

Behaviours of the relay worth noting (prod-server/server.ts):

- The relay stores no timer state; each handler only re-emits its event (lines 32-46).
- `JOIN_ROOM` adds the connection to a room without leaving any room it is already in
  (line 27).
- A broadcast reaches the sender when the sender is a member of the target room, because
  `io.to(roomId).emit` addresses every member (lines 29-45). A sender outside the room
  gets nothing back, as `RoomRelay.RelayScenario` shows.

Three mismatches between the layers are proved rather than patched:

- `RoomCreationFlow.PrivateFormRejectedBySchema`: every private room the form accepts
  with a name of at most 50 characters and on-slider durations posts a `password` key. The request schema does not declare that key, so the request
  is refused with `"password" is not allowed`.
- `RoomCreationFlow.ShortTrimmedNameIsServerError` and `PaddedNameExample`: a name such
  as `"  ab "` passes the form and the schema. The document's `trim` setter then cuts it
  below `minlength`, and `createRoom` answers 500.
- `RoomCreationFlow.LongNameRefusedBySchema`: the form sets no upper bound on the name.
  A name of more than 50 characters passes the form, public or private, and the schema
  refuses it first with "Room name cannot exceed 50 characters".

The route mounts `protect` and `validate(createRoomSchema)` in front of `createRoom`.
The controller's own 400 and 401 branches are modelled as written, although on that
route the middleware answers first.

## Model

| member | source | states |
|---|---|---|
| Js.IsBlank | prod-client/src/components/ui/JoinRoomForm.tsx:78 | `!s.trim()` is true exactly for strings made only of whitespace, the empty string included |
| RoomRelay.Joined | prod-server/server.ts:26-27 | after a join the connection is in the room; no room loses a member; only the joined room changes |
| RoomRelay.LeftAll | prod-server/server.ts:48-51 | a closed connection is in no room afterwards; every room keeps all its other members |
| RoomRelay.JoinThenDisconnect | prod-server/server.ts:26-51 | for any membership, a join followed by a disconnect leaves every room with its members before the join less the connection; a connection that was not yet in the joined room leaves its size unchanged |
| RoomRelay.FanOut | prod-server/server.ts:29 | one broadcast delivers the event exactly once to each member and to nobody else |
| RoomRelay.Relay.constructor | prod-server/server.ts:23 | no rooms and nothing delivered yet |
| RoomRelay.Relay.Emit | prod-server/server.ts:29 | `io.to(r).emit` appends to the log; each member's inbox gains the event, other inboxes are unchanged |
| RoomRelay.Relay.Connect | prod-server/server.ts:23 | a new connection sits in the room named by its own id |
| RoomRelay.Relay.OnJoinRoom | prod-server/server.ts:26-30 | the joiner becomes a member, and every member, the joiner included, receives `USER_JOINED` with the joiner's id |
| RoomRelay.Relay.OnTimerStart | prod-server/server.ts:32-34 | members receive `TIMER_STARTED` with exactly the requested duration and type and `startedAt` = server time; there is no membership check |
| RoomRelay.Relay.OnTimerPause | prod-server/server.ts:36-38 | members receive `TIMER_PAUSED` with no payload; membership is untouched |
| RoomRelay.Relay.OnTimerTick | prod-server/server.ts:40-42 | members receive `TIMER_UPDATED` with `remaining` verbatim, unchecked |
| RoomRelay.Relay.OnEmojiSend | prod-server/server.ts:44-46 | members receive `EMOJI_RECEIVE` with emoji and username unchanged, plus the server time |
| RoomRelay.Relay.OnDisconnect | prod-server/server.ts:48-51 | the handler emits nothing; the connection leaves all rooms |
| RoomRelay.ThreeConnections | prod-server/server.ts:23-30 | A and B join R1 and C joins R2: membership and each inbox are exactly the expected ones |
| RoomRelay.StartPauseScenario | prod-server/server.ts:26-38 | a start and a pause in R1 reach A and B with identical payloads, and C receives nothing |
| RoomRelay.RelayScenario | prod-server/server.ts:32-46 | a non-member's out-of-order ticks and repeated starts, then a member's emoji, reach both members verbatim and in order; nothing is merged, and the non-member receives none |
| Clock.FormatTime | prod-client/src/components/ui/DigitalTimer.tsx:64-68 | the `MM:SS` text has at least five characters |
| Clock.FormatTimeRoundTrip | prod-client/src/components/ui/PageTimer.tsx:45-49 | for every non-negative count the text is well-formed clock text; its seconds field is the count mod 60 (00..59); reading it back gives the count |
| Clock.FormatTimeWidth | prod-client/src/components/ui/PageTimer.tsx:45-49 | below 6000 seconds the text has exactly five characters |
| PageTimer.Duration | prod-client/src/components/ui/PageTimer.tsx:11-15 | pomodoro 1500 s, short break 300 s, long break 900 s: whole minutes, and only pomodoro is 1500 |
| PageTimer.Tick | prod-client/src/components/ui/PageTimer.tsx:18-28 | while running with time left, a tick takes off one second and stops exactly at 0; otherwise nothing changes; the mode never changes |
| PageTimer.CountdownTicks | prod-client/src/components/ui/PageTimer.tsx:18-28 | n ticks of a running timer with at least n seconds remove exactly n seconds |
| PageTimer.CountdownRunsOut | prod-client/src/components/ui/PageTimer.tsx:18-28 | after `time` ticks the timer is at 0 and stopped, and stays there; time never goes negative |
| PageTimer.Start | prod-client/src/components/ui/PageTimer.tsx:51-53 | only the running flag changes |
| PageTimer.Pause | prod-client/src/components/ui/PageTimer.tsx:55-57 | only the running flag changes |
| PageTimer.Reset | prod-client/src/components/ui/PageTimer.tsx:59-62 | stops, and refills the current mode's duration without changing the mode |
| PageTimer.ModeChange | prod-client/src/components/ui/PageTimer.tsx:64-68 | stops, switches mode, and sets that mode's duration |
| PageTimer.Cycle | prod-client/src/components/ui/PageTimer.tsx:231 | pomodoro goes to the short break, and every other mode goes to pomodoro |
| PageTimer.Press | prod-client/src/components/ui/PageTimer.tsx:147-238 | a disabled control changes nothing; the toggle flips the running flag and keeps the time |
| PageTimer.ValidInitial | prod-client/src/components/ui/PageTimer.tsx:6-8 | the mount state (1500, stopped, pomodoro) is valid and not ticking |
| PageTimer.PressKeepsValid | prod-client/src/components/ui/PageTimer.tsx:147-238 | with the `disabled` guards, every click keeps the time within the mode's length, and a running timer always has time left |
| PageTimer.TickKeepsValid | prod-client/src/components/ui/PageTimer.tsx:18-28 | ticks keep that invariant |
| PageTimer.StartAtZeroIsStuck | prod-client/src/components/ui/PageTimer.tsx:217-219 | the guard on the toggle is needed: starting at 0 would break the invariant |
| PageTimer.ModeFrozenWhileRunning | prod-client/src/components/ui/PageTimer.tsx:152 | no click changes the mode while the timer runs |
| PageTimer.Display | prod-client/src/components/ui/PageTimer.tsx:196-198 | every valid state shows five characters of clock text that read back as the remaining time |
| PageTimer.PomodoroTimer.constructor | prod-client/src/components/ui/PageTimer.tsx:6-8 | the initial state |
| PageTimer.PomodoroTimer.OnTick | prod-client/src/components/ui/PageTimer.tsx:18-28 | the interval callback performs `Tick` |
| PageTimer.PomodoroTimer.HandleStart | prod-client/src/components/ui/PageTimer.tsx:51-53 | performs `Start` |
| PageTimer.PomodoroTimer.HandlePause | prod-client/src/components/ui/PageTimer.tsx:55-57 | performs `Pause` |
| PageTimer.PomodoroTimer.HandleReset | prod-client/src/components/ui/PageTimer.tsx:59-62 | performs `Reset` |
| PageTimer.PomodoroTimer.HandleModeChange | prod-client/src/components/ui/PageTimer.tsx:64-68 | performs `ModeChange` |
| PageTimer.PomodoroTimer.Click | prod-client/src/components/ui/PageTimer.tsx:147-238 | performs `Press` and keeps the state valid |
| DigitalTimer.Digits | prod-client/src/components/ui/DigitalTimer.tsx:70-72 | `getDigits` gives one cell per character, each holding exactly that character |
| DigitalTimer.DigitsConcat | prod-client/src/components/ui/DigitalTimer.tsx:70-72 | the cells joined back give the input: nothing dropped, nothing added |
| DigitalTimer.DisplayCells | prod-client/src/components/ui/DigitalTimer.tsx:78-94 | below 100 minutes there are five cells: two padded minute digits, the colon, two padded second digits |
| DigitalTimer.HandleToggle | prod-client/src/components/ui/DigitalTimer.tsx:74-76 | exactly one callback: `onPause` when running, `onStart` otherwise |
| DigitalTimer.Click | prod-client/src/components/ui/DigitalTimer.tsx:99-171 | at most one callback per click; an adjuster calls nothing exactly while running |
| DigitalTimer.AdjustDeltasSymmetric | prod-client/src/components/ui/DigitalTimer.tsx:99-138 | the deltas are -60, -10, +10, +60 in opposite pairs; a paused timer can be moved by exactly those amounts |
| DigitalTimer.Status | prod-client/src/components/ui/DigitalTimer.tsx:174-182 | "Time's Up!" iff time is 0, even while running; otherwise running or paused by the flag |
| TaskList.AddTask | prod-client/src/components/ui/TaskList.tsx:168-180 | blank input adds nothing; otherwise one open task with the trimmed, non-empty text goes in front and the rest keep their order |
| TaskList.ToggleTask | prod-client/src/components/ui/TaskList.tsx:182-188 | only tasks with the id have `completed` flipped; length, order and the other fields are unchanged |
| TaskList.ToggleTwice | prod-client/src/components/ui/TaskList.tsx:182-188 | toggling twice is the identity |
| TaskList.ToggleUniqueMovesOne | prod-client/src/components/ui/TaskList.tsx:182-188 | toggling a unique id moves exactly one task between completed and open |
| TaskList.ToggleAbsentIsIdentity | prod-client/src/components/ui/TaskList.tsx:182-188 | toggling an id nobody carries changes nothing |
| TaskList.DeleteTask | prod-client/src/components/ui/TaskList.tsx:190-192 | the result holds exactly the tasks without the id |
| TaskList.DeleteKeepsOrder | prod-client/src/components/ui/TaskList.tsx:190-192 | survivors keep their relative order, and exactly the tasks with the id are removed |
| TaskList.DeleteAbsentIsIdentity | prod-client/src/components/ui/TaskList.tsx:190-192 | deleting an absent id changes nothing |
| TaskList.DeleteIdempotent | prod-client/src/components/ui/TaskList.tsx:190-192 | deleting twice is deleting once |
| TaskList.EditTask | prod-client/src/components/ui/TaskList.tsx:194-200 | only the text of matching tasks changes; ids, flags and the other tasks are unchanged |
| TaskList.CompletedCount | prod-client/src/components/ui/TaskList.tsx:218 | the completed count is at most the number of tasks |
| TaskList.CountsPartition | prod-client/src/components/ui/TaskList.tsx:218-219 | completed plus remaining equals the total |
| TaskList.ProgressPercentage | prod-client/src/components/ui/TaskList.tsx:220 | 0 for an empty list, within 0..100, and 100 exactly when every task is done |
| TaskList.TaskListView.constructor | prod-client/src/components/ui/TaskList.tsx:164-165 | the given tasks, an empty input, not adding |
| TaskList.TaskListView.SetNewTaskText | prod-client/src/components/ui/TaskList.tsx:164 | typing sets the input |
| TaskList.TaskListView.Add | prod-client/src/components/ui/TaskList.tsx:168-180 | performs `AddTask`; a real add clears the input and leaves adding mode, and a blank one changes nothing |
| TaskList.TaskListView.KeyPress | prod-client/src/components/ui/TaskList.tsx:202-209 | Enter performs `addTask`: a real add clears the input and leaves adding mode, a blank input changes nothing; Escape clears the input without adding; other keys change nothing |
| TaskList.TaskListView.CancelAdding | prod-client/src/components/ui/TaskList.tsx:205-208 | clears the input and leaves adding mode |
| TaskList.TaskListView.StartAdding | prod-client/src/components/ui/TaskList.tsx:211-216 | enters adding mode |
| TaskList.TaskListView.Toggle | prod-client/src/components/ui/TaskList.tsx:182-188 | performs `ToggleTask` |
| TaskList.TaskListView.Delete | prod-client/src/components/ui/TaskList.tsx:190-192 | performs `DeleteTask` |
| TaskList.TaskListView.Edit | prod-client/src/components/ui/TaskList.tsx:194-200 | performs `EditTask` |
| TaskList.EditRequest | prod-client/src/components/ui/TaskList.tsx:41-46 | `onEdit` is called iff the buffer is not blank and differs from the text, and it gets the trimmed buffer |
| TaskList.EditRequestApplied | prod-client/src/components/ui/TaskList.tsx:41-46 | an applied edit leaves a non-blank text with no edge whitespace, and touches no other field |
| TaskList.TaskItem.constructor | prod-client/src/components/ui/TaskList.tsx:20-22 | a row starts out of edit mode with the task's text in the buffer |
| TaskList.TaskItem.StartEditing | prod-client/src/components/ui/TaskList.tsx:21 | enters edit mode |
| TaskList.TaskItem.SetEditText | prod-client/src/components/ui/TaskList.tsx:22 | typing sets the edit buffer |
| TaskList.TaskItem.HandleEdit | prod-client/src/components/ui/TaskList.tsx:41-46 | makes the `EditRequest` call, if any, and always leaves edit mode |
| TaskList.TaskItem.HandleCancel | prod-client/src/components/ui/TaskList.tsx:48-51 | restores the buffer to the task's text and leaves edit mode |
| TaskList.TaskItem.KeyPress | prod-client/src/components/ui/TaskList.tsx:53-59 | Enter confirms, Escape cancels, other keys change nothing |
| TaskList.TaskItem.ReceiveTask | prod-client/src/components/ui/TaskList.tsx:296-307 | the parent's re-render under the same `key` gives the row the task as it now stands and keeps its edit mode and buffer |
| TaskList.EditThenCancelScenario | prod-client/src/components/ui/TaskList.tsx:41-51 | editing "a" to " b " calls `onEdit` with "b"; after the parent applies it, a cancelled edit restores "b" |
| AuthForms.ValidateEmailMatchesPattern | prod-client/src/pages/AuthForms.tsx:38-41 | the check accepts exactly what `/^[^\s@]+@[^\s@]+\.[^\s@]+$/` matches: one `@` with something before it, no whitespace, and a dot inside the domain |
| AuthForms.EmailAccepted | prod-client/src/pages/AuthForms.tsx:38-41 | "ann@x.io" is accepted |
| AuthForms.EmailDotAfterAtRefused | prod-client/src/pages/AuthForms.tsx:38-41 | a dot right after the `@` is refused |
| AuthForms.EmailDotAtEndRefused | prod-client/src/pages/AuthForms.tsx:38-41 | a dot at the end is refused |
| AuthForms.EmailTwoAtsRefused | prod-client/src/pages/AuthForms.tsx:38-41 | a second `@` is refused |
| AuthForms.Errors | prod-client/src/pages/AuthForms.tsx:47-81 | each field's message, both directions: "required" exactly when empty, the format error exactly when non-empty and refused, the password valid iff length >= 8; login mode never checks name or confirmation; no message iff the form is acceptable |
| AuthForms.ComputeErrors | prod-client/src/pages/AuthForms.tsx:50-77 | setting the messages one field after another builds exactly `Errors` |
| AuthForms.AuthForm.constructor | prod-client/src/pages/AuthForms.tsx:26-36 | login mode, blank form, no errors |
| AuthForms.AuthForm.ValidateForm | prod-client/src/pages/AuthForms.tsx:47-81 | the errors become `Errors` of the mode and form; the result is true iff no error was set, iff the form is acceptable |
| AuthForms.AuthForm.HandleInputChange | prod-client/src/pages/AuthForms.tsx:83-89 | sets one field and clears only that field's error |
| AuthForms.AuthForm.ToggleMode | prod-client/src/pages/AuthForms.tsx:122-131 | flips the mode, blanks all four fields and clears all errors |
| AuthForms.AuthForm.HandleSubmit | prod-client/src/pages/AuthForms.tsx:91-120 | a refused form keeps its values and gets exactly the messages `Errors` gives; an accepted one ends blank, with no errors and not loading |
| JoinRoomForm.Errors | prod-client/src/components/ui/JoinRoomForm.tsx:48-75 | each message both ways: username blank, or shorter than 2 untrimmed; search needs a selection; a code must be non-blank with length >= 6; a password is required iff the selected room asks for one and it is blank; no message iff the form is acceptable |
| JoinRoomForm.ComputeErrors | prod-client/src/components/ui/JoinRoomForm.tsx:48-75 | setting the messages one field after another, blankness tested with `trim()`, builds exactly `Errors` |
| JoinRoomForm.UsernameLengthIsUntrimmed | prod-client/src/components/ui/JoinRoomForm.tsx:51-55 | "a" is refused and " a" is accepted |
| JoinRoomForm.SearchRooms | prod-client/src/components/ui/JoinRoomForm.tsx:83-86 | results are exactly the public rooms whose lower-cased name contains the lower-cased query |
| JoinRoomForm.SearchKeepsOrder | prod-client/src/components/ui/JoinRoomForm.tsx:83-86 | results keep the room list's order |
| JoinRoomForm.SearchNeverOffersPasswordRoom | prod-client/src/components/ui/JoinRoomForm.tsx:41-86 | searching the built-in list never offers a room that asks for a password |
| JoinRoomForm.SearchExample | prod-client/src/components/ui/JoinRoomForm.tsx:83-86 | "STUDY" finds "Study Group Alpha" but not the private "Private Study" |
| JoinRoomForm.JoinRoomFormState.constructor | prod-client/src/components/ui/JoinRoomForm.tsx:27-46 | the initial form, with no errors, selection or results |
| JoinRoomForm.JoinRoomFormState.ValidateForm | prod-client/src/components/ui/JoinRoomForm.tsx:48-75 | the errors become `Errors` of the form and selection; valid iff no error was set, iff the form is acceptable |
| JoinRoomForm.JoinRoomFormState.HandleSearch | prod-client/src/components/ui/JoinRoomForm.tsx:77-90 | a blank query does nothing; otherwise the results are `SearchRooms` of the list |
| JoinRoomForm.JoinRoomFormState.HandleJoinRoom | prod-client/src/components/ui/JoinRoomForm.tsx:92-98 | the errors become `Errors` of the form; joins only a valid form: the selected room when searching, the typed code otherwise |
| JoinRoomForm.JoinRoomFormState.HandleInputChange | prod-client/src/components/ui/JoinRoomForm.tsx:100-110 | sets the field and clears its error; editing the search also drops the selection |
| JoinRoomForm.JoinRoomFormState.TypeRoomCode | prod-client/src/components/ui/JoinRoomForm.tsx:300 | the typed code is stored upper-cased |
| JoinRoomForm.JoinRoomFormState.SelectRoom | prod-client/src/components/ui/JoinRoomForm.tsx:112-115 | selects the room and clears only the search error |
| JoinRoomForm.JoinRoomFormState.SetJoinMethod | prod-client/src/components/ui/JoinRoomForm.tsx:164-168 | switching method drops the selection and the results |
| JoinRoomForm.JoinRoomFormState.Clear | prod-client/src/components/ui/JoinRoomForm.tsx:356-367 | back to the initial form, with no errors, selection or results |
| RoomConfigForm.SliderTable | prod-client/src/components/ui/RoomConfigForm.tsx:242-295 | each slider (15..60 step 5, 3..15 step 1, 10..30 step 5) has a positive step, and its default and both ends lie on it |
| RoomConfigForm.WithMinutes | prod-client/src/components/ui/RoomConfigForm.tsx:96-101 | setting one duration leaves the other two, the name, the visibility and the password unchanged |
| RoomConfigForm.Errors | prod-client/src/components/ui/RoomConfigForm.tsx:38-57 | each message both ways: name blank, or shorter than 3 untrimmed; a private password blank, or shorter than 4; a public room never gets a password error; no message iff the form is acceptable |
| RoomConfigForm.ComputeErrors | prod-client/src/components/ui/RoomConfigForm.tsx:38-54 | setting the messages one field after another, blankness tested with `trim()`, builds exactly `Errors` |
| RoomConfigForm.BuildSubmitData | prod-client/src/components/ui/RoomConfigForm.tsx:65-69 | the body omits `password` iff the room is public, and otherwise equals the form |
| RoomConfigForm.SubmitKeys | prod-client/src/components/ui/RoomConfigForm.tsx:65-69 | the posted key order contains `password` iff the room is private |
| RoomConfigForm.SubmitKeysMatchBody | prod-client/src/components/ui/RoomConfigForm.tsx:65-69 | the key order lists exactly the posted keys, each once |
| RoomConfigForm.FormatMinutesExamples | prod-client/src/components/ui/RoomConfigForm.tsx:116-118 | `formatTime(1)` is "1 minute" and `formatTime(25)` is "25 minutes" |
| RoomConfigForm.RoomConfigFormState.constructor | prod-client/src/components/ui/RoomConfigForm.tsx:26-36 | the initial form, whose durations lie on their sliders |
| RoomConfigForm.RoomConfigFormState.ValidateForm | prod-client/src/components/ui/RoomConfigForm.tsx:38-57 | the errors become `Errors` of the form; valid iff no error was set, iff the form is acceptable |
| RoomConfigForm.RoomConfigFormState.HandleSubmit | prod-client/src/components/ui/RoomConfigForm.tsx:59-94 | the errors become `Errors` of the form; posts nothing when invalid; otherwise posts every key of the form object with its value, and `password` only for a private room |
| RoomConfigForm.RoomConfigFormState.ChangeName | prod-client/src/components/ui/RoomConfigForm.tsx:96-101 | sets the name and clears only its error |
| RoomConfigForm.RoomConfigFormState.ChangePassword | prod-client/src/components/ui/RoomConfigForm.tsx:96-101 | sets the password and clears only its error |
| RoomConfigForm.RoomConfigFormState.ChangeMinutes | prod-client/src/components/ui/RoomConfigForm.tsx:242 | sets one duration; durations stay on their sliders |
| RoomConfigForm.RoomConfigFormState.HandleVisibilityChange | prod-client/src/components/ui/RoomConfigForm.tsx:103-114 | going public clears the password and its error; going private keeps the password |
| RoomConfigForm.RoomConfigFormState.Reset | prod-client/src/components/ui/RoomConfigForm.tsx:329-339 | back to the defaults, with no errors |
| SessionAvatar.DefaultParticipants | prod-client/src/components/ui/SessionAvatar.tsx:38-86 | seven default participants |
| SessionAvatar.ActiveParticipants | prod-client/src/components/ui/SessionAvatar.tsx:88 | the given list when it is non-empty, the defaults otherwise; never empty |
| SessionAvatar.ActiveCount | prod-client/src/components/ui/SessionAvatar.tsx:88 | the number of active participants, at least one |
| SessionAvatar.VisibleAndRemaining | prod-client/src/components/ui/SessionAvatar.tsx:88-90 | for a non-negative limit the visible list is a prefix; visible plus remaining is the total; the label shows `min(cur, n)`; "+k" appears iff `cur < n` |
| SessionAvatar.NegativeLimit | prod-client/src/components/ui/SessionAvatar.tsx:89-90 | for a negative limit `slice` counts from the end, and visible plus remaining exceeds the total |
| SessionAvatar.SplitSpaces | prod-client/src/components/ui/SessionAvatar.tsx:118 | `split(' ')` yields at least one word; the last one is empty iff the name is empty or ends in a space |
| SessionAvatar.HeadsOfSplit | prod-client/src/components/ui/SessionAvatar.tsx:116-120 | the first letters of the split words are exactly the characters that start a word |
| SessionAvatar.GetInitials | prod-client/src/components/ui/SessionAvatar.tsx:116-123 | at most two characters: the upper-cased word starts, in order, cut to two |
| SessionAvatar.WordStartsExample | prod-client/src/components/ui/SessionAvatar.tsx:116-120 | the word starts of "bo li" are "bl" |
| SessionAvatar.InitialsExample | prod-client/src/components/ui/SessionAvatar.tsx:116-123 | the initials of "bo li" are "BL" |
| SessionAvatar.FormatJoinTime | prod-client/src/components/ui/SessionAvatar.tsx:136-145 | "Just joined" iff under a minute; "`m`m ago" below an hour; otherwise whole hours, "`h`h ago" |
| SessionAvatar.HoursFromMinutes | prod-client/src/components/ui/SessionAvatar.tsx:143 | flooring minutes and then hours gives the whole hours |
| SessionAvatar.JoinTimeExamples | prod-client/src/components/ui/SessionAvatar.tsx:136-145 | 30 s, 15 min and 150 min give "Just joined", "15m ago" and "2h ago" |
| SessionAvatar.Fewer | prod-client/src/components/ui/SessionAvatar.tsx:215-216 | the minus button (disabled at <= 3) sets `max(3, cur - 3)`: at most 3 fewer, never below 3 |
| SessionAvatar.More | prod-client/src/components/ui/SessionAvatar.tsx:226-227 | the plus button (disabled at >= n) sets `min(n, cur + 3)`: at most 3 more, never above n |
| SessionAvatar.MoreReachesAll | prod-client/src/components/ui/SessionAvatar.tsx:226-227 | repeated plus clicks stay within [cur, n] and reach n after ceil((n - cur) / 3) clicks |
| SessionAvatar.FewerReachesThree | prod-client/src/components/ui/SessionAvatar.tsx:215-216 | repeated minus clicks stay within [3, cur] and step by 3 until they reach 3 |
| SessionAvatar.ButtonsKeepLimitNonNegative | prod-client/src/components/ui/SessionAvatar.tsx:215-227 | from a non-negative limit both buttons keep it non-negative |
| SessionAvatar.AvatarStrip.constructor | prod-client/src/components/ui/SessionAvatar.tsx:26-35 | the strip starts from the given participants and limit; an omitted prop takes its default, no participants and six shown |
| SessionAvatar.DefaultMount | prod-client/src/components/ui/SessionAvatar.tsx:26-90 | with neither prop the first six of the seven samples are shown with a "+1" badge |
| SessionAvatar.AvatarStrip.ClickFewer | prod-client/src/components/ui/SessionAvatar.tsx:215-216 | performs `Fewer`; a limit of at least 3 stays at least 3 |
| SessionAvatar.AvatarStrip.ClickMore | prod-client/src/components/ui/SessionAvatar.tsx:226-227 | performs `More` for the active count; a limit within the count stays within it |
| Chat.FormatTimeRemainingRoundTrip | prod-client/src/components/ui/Chat.tsx:140-144 | unpadded minutes, a colon, two padded seconds: clock text that reads back as the count, equal to the timers' text from ten minutes on |
| Chat.ShortRemainingExample | prod-client/src/components/ui/Chat.tsx:140-144 | 300 s shows "5:00" here and "05:00" in the timers |
| Chat.RemainingCell | prod-client/src/components/ui/Chat.tsx:203-207 | a cell appears iff a time is set and either it is 0 or the user is not offline |
| Chat.RemainingCellShowsClock | prod-client/src/components/ui/Chat.tsx:203-207 | clock text appears iff the time is non-zero and the user is not offline; a zero time renders a bare "0" |
| Chat.CountStatus | prod-client/src/components/ui/Chat.tsx:164-165 | a status count is at most the user count |
| Chat.CountersPartition | prod-client/src/components/ui/Chat.tsx:164-165 | the focusing, on-break and offline counts sum to the user count, so the two badges sum to at most that |
| Chat.CountZeroIff | prod-client/src/components/ui/Chat.tsx:164-165 | a count is zero iff nobody has the status |
| Chat.InitialCounters | prod-client/src/components/ui/Chat.tsx:73-101 | the built-in users give 2 focusing and 1 on break |
| Chat.ChatView.constructor | prod-client/src/components/ui/Chat.tsx:103 | the given messages and an empty input |
| Chat.ChatView.SetNewMessage | prod-client/src/components/ui/Chat.tsx:103 | typing sets the input |
| Chat.ChatView.HandleSendMessage | prod-client/src/components/ui/Chat.tsx:114-127 | blank input changes nothing; otherwise exactly one message, with the untrimmed text and sender "You", is appended, and the input is cleared |
| Chat.ChatView.HandleKeyPress | prod-client/src/components/ui/Chat.tsx:129-134 | Enter without Shift sends; every other key, Shift+Enter included, changes nothing |
| RoomCode.AlphabetIsUnambiguous | prod-server/src/utils/generateroomcode.ts:2 | 32 characters, all upper-case letters other than I and O, or digits 2..9 |
| RoomCode.AlphabetDistinct | prod-server/src/utils/generateroomcode.ts:2 | each character occurs once, at its computed position |
| RoomCode.AlphabetIsComplete | prod-server/src/utils/generateroomcode.ts:2 | every such unambiguous character is in the alphabet |
| RoomCode.Pick | prod-server/src/utils/generateroomcode.ts:6 | `floor(r * 32)` for `0 <= r < 1` is a valid index |
| RoomCode.GenerateRoomCode | prod-server/src/utils/generateroomcode.ts:1-10 | the loop builds `CodeFor(draws)`, one character per draw; the identical copies in model/Room.ts (lines 127-134) and controller/roomController.ts (lines 81-88) are this same function |
| RoomCode.CodeShape | prod-server/src/utils/generateroomcode.ts:5-7 | six alphabet characters, never I, O, 0 or 1, and unchanged by upper-casing |
| RoomCode.EveryCodeReachable | prod-server/src/utils/generateroomcode.ts:5-7 | every six-character string over the alphabet is produced by some draws |
| RoomValidator.Message | prod-server/src/validators/roomvalidator.ts:5-27 | every error has a non-empty text: the schema's own for the name's empty, min and max rules, the visibility and the duration bounds; Joi's default with the quoted key otherwise |
| RoomValidator.MessageIdentifiesError | prod-server/src/validators/roomvalidator.ts:3-29 | distinct errors have distinct texts, an undeclared key's included |
| RoomValidator.CheckName | prod-server/src/validators/roomvalidator.ts:4-9 | no error iff the name is a string of 3..50 characters, untrimmed |
| RoomValidator.CheckVisibility | prod-server/src/validators/roomvalidator.ts:10-13 | no error iff the value is "public" or "private"; any other present value gets the `any.only` message |
| RoomValidator.CheckDuration | prod-server/src/validators/roomvalidator.ts:14-28 | no error iff the value is a whole number within the duration's bounds |
| RoomValidator.FirstUnknown | prod-server/src/validators/roomvalidator.ts:3-29 | none iff every key is declared; otherwise an undeclared key of the body |
| RoomValidator.ValidateAcceptsExactly | prod-server/src/validators/roomvalidator.ts:3-29 | the schema reports no error exactly for a missing body, or an object with only declared keys, a 3..50 name, one of the two visibilities, and whole durations in 15..60, 3..15 and 10..30 |
| RoomValidator.UnknownKeyReported | prod-server/src/validators/roomvalidator.ts:3-29 | when the declared keys pass, the error names the first undeclared key in the body's order, such as `password` |
| RoomValidator.FirstUnknownIsFirst | prod-server/src/validators/roomvalidator.ts:3-29 | the reported unknown key is the first one |
| RoomValidator.RequestOf | prod-server/src/validators/roomvalidator.ts:3-29 | an accepted body carries a 3..50 name, a valid visibility and durations in range |
| RoomModel.Violations | prod-server/src/model/Room.ts:21-73 | a path is reported iff its validator fails |
| RoomModel.HashedPassword | prod-server/src/model/Room.ts:89-97 | the password changes only when it was modified, the room is private and it is non-empty, and then it becomes its hash |
| RoomModel.AttemptsFrom | prod-server/src/model/Room.ts:106-125 | the hook makes between 1 and 5 attempts |
| RoomModel.AttemptsBound | prod-server/src/model/Room.ts:106-125 | every attempt before the last hit a stored code; the last is free unless all five were tried |
| RoomModel.CodeHookThrowsIff | prod-server/src/model/Room.ts:106-125 | the hook throws iff all five attempted codes already exist |
| RoomModel.ConstructedPaths | prod-server/src/model/Room.ts:89-107 | a new document counts the password as modified iff one was given, and always counts the room code |
| RoomModel.SaveOutcome | prod-server/src/model/Room.ts:88-125 | stored iff validation passes, the insert succeeds and a regenerated code is free; a stored room keeps every field except the hashed password and a new code not already in use, and is the `Hooked` document; a database error comes only from the insert |
| RoomModel.RoomDocument.constructor | prod-server/src/model/Room.ts:19-86 | the document holds `Constructed`: the name trimmed, the code upper-cased, visibility defaulting to "public", the rest as given; the given paths count as modified |
| RoomModel.RoomDocument.HashPasswordHook | prod-server/src/model/Room.ts:89-97 | performs `HashedPassword` |
| RoomModel.RoomDocument.UniqueCodeHook | prod-server/src/model/Room.ts:106-125 | the loop ends on the attempt `Attempts` predicts, and throws iff that code is still taken; the hook leaves an old, unchanged code alone |
| RoomModel.RoomDocument.Save | prod-server/src/model/Room.ts:88-125 | agrees with `SaveOutcome`; a failed validation changes nothing; once validation passes the document holds the `Hooked` values (hashed password, last code tried) whatever the outcome; a failed save leaves `isNew` and the modified paths as they were |
| RoomModel.ComparePassword | prod-server/src/model/Room.ts:100-103 | false without comparing unless private with a stored password; true only on bcrypt's match; throws for a non-string entry |
| RoomModel.ToJson | prod-server/src/model/Room.ts:77-84 | `id` takes `_id`; `_id`, `__v` and `password` are absent; every other key is unchanged |
| RoomController.BadRequestIdentifiesError | prod-server/src/controller/roomController.ts:10-13 | a 400 reply's `message` is the text of the schema's first error and of no other error |
| RoomController.CatchStatus | prod-server/src/controller/roomController.ts:66-71 | 409 iff a Mongo error with code 11000 and a truthy `keyPattern.roomCode`, else 500 |
| RoomController.Thrown | prod-server/src/controller/roomController.ts:62-71 | validation and hook errors are not Mongo errors |
| RoomController.AddToSet | prod-server/src/controller/roomController.ts:38-40 | the id is present afterwards, nothing else is added, and the old list is a prefix |
| RoomController.AddToSetIsSetLike | prod-server/src/controller/roomController.ts:38-40 | adding keeps the list duplicate-free, and adding twice is adding once |
| RoomController.CreateRoom | prod-server/src/controller/roomController.ts:7-72 | 400 iff the schema errs, replying with the text of its first error; 401 iff valid with no user id; 201 iff created, adding the room to the user once; only a failed update leaves a room stored with a non-201 status |
| RoomController.CreatedRoomShape | prod-server/src/controller/roomController.ts:24-60 | a created room: owner and sole member the user, no password, the request's values with a trimmed 3..50 name, and a code from the save hook not already in use |
| RoomController.ConflictOnlyFromDuplicateCode | prod-server/src/controller/roomController.ts:62-71 | a 409 comes only from a duplicate-key error on the room code thrown by a write |
| RoomController.MongoErrorExamples | prod-server/src/controller/roomController.ts:75-77 | `keyPattern` must name `roomCode`, and both `code` and `keyPattern` must be present |
| RoomAuthController.Status | prod-server/src/controller/roomAuthController.ts:8-38 | every reply's status is 200, 400, 401, 404 or 500, and 200 only for a verified password |
| RoomAuthController.Success | prod-server/src/controller/roomAuthController.ts:31-34 | `success: true` only on 200 |
| RoomAuthController.VerifyRoomPassword | prod-server/src/controller/roomAuthController.ts:4-40 | a missing body is a 500; a falsy `roomId` or `password` gives 400 before any lookup |
| RoomAuthController.LadderOrder | prod-server/src/controller/roomAuthController.ts:8-29 | 400, 404, 400 and 500 each come from exactly one failing check, in order, after all earlier checks passed |
| RoomAuthController.VerifiedExactly | prod-server/src/controller/roomAuthController.ts:26-34 | 200 iff the room exists, is private, has a password, and bcrypt matches the entered string |
| RoomAuthController.MismatchIsBcryptsAnswer | prod-server/src/controller/roomAuthController.ts:26-29 | a 401 always comes from bcrypt's own comparison, never from the guard in `comparePassword` |
| RoomAuthController.NonStringPasswordIsServerError | prod-server/src/controller/roomAuthController.ts:26-39 | a truthy non-string password makes the comparison throw, which is a 500 |
| RoomCreationFlow.RangesAgree | prod-server/src/validators/roomvalidator.ts:14-28 | slider ends, Joi bounds and Mongoose `min`/`max` agree for all three durations |
| RoomCreationFlow.SliderValuesPassServer | prod-client/src/components/ui/RoomConfigForm.tsx:242-295 | every slider value passes both server checks |
| RoomCreationFlow.Posted | prod-client/src/components/ui/RoomConfigForm.tsx:65-71 | the posted body lists its keys in order and carries `password` iff private |
| RoomCreationFlow.PostedFieldsPass | prod-server/src/validators/roomvalidator.ts:4-28 | the declared fields of a form the client accepts, with on-slider durations and a name of at most 50 characters, pass the schema |
| RoomCreationFlow.PublicFormPassesSchema | prod-server/src/validators/roomvalidator.ts:3-29 | a public form the client accepts, with on-slider durations and a name of at most 50 characters, passes the schema |
| RoomCreationFlow.PrivateFormRejectedBySchema | prod-server/src/validators/roomvalidator.ts:3-29 | a private form the client accepts, with on-slider durations and a name of at most 50 characters, is refused with `NotAllowed("password")`, whose text is `"password" is not allowed` |
| RoomCreationFlow.LongNameRefusedBySchema | prod-server/src/validators/roomvalidator.ts:4-9 | a form-accepted name over 50 characters, public or private, is refused first with "Room name cannot exceed 50 characters" |
| RoomCreationFlow.ShortTrimmedNameIsServerError | prod-server/src/model/Room.ts:21-27 | a schema-valid name under 3 characters once trimmed makes `createRoom` answer 500 and store nothing |
| RoomCreationFlow.PaddedNameExample | prod-client/src/components/ui/RoomConfigForm.tsx:41-45 | "  ab " passes the form and the schema and trims to 2 characters |

## Left out

- Floating-point behaviour:
  - the SVG progress ring (`getProgress`) and `FocusStatChart.tsx`;
  - `TaskList.ProgressPercentage` is exact rational arithmetic, not IEEE rounding.
- Timers and animation: the intervals and timeouts are modelled as one explicit step each, such as `OnTick` and a search run to completion. `AnimatedDigit` and focus handling are left out.
- Clocks and ids: `Date.now()`, `new Date()` and generated ids are parameters. `toLocaleTimeString` is not modelled.
- `Math.random()`: replaced by the sequence of values it returns, each in [0, 1).
- bcrypt: a hash function and a matching predicate passed in.
- JWT issuing and the `protect` middleware: only the resulting user, or its absence, enters `createRoom`.
- MongoDB and Mongoose:
  - The database is the set of stored codes, the lookup result and the errors the writes throw.
  - The users collection is only the user's list of room ids.
  - `createdAt` comes from the environment.
- The Express wiring (routes, `validate` middleware, `validateEnv.ts`): the middleware runs the same schema before `createRoom`, which is not modelled a second time.
- Socket.io internals: delivery order across connections and transport failures are not modelled; handlers run one after another.
- Presentational components (`Landing.tsx`, `Home.tsx`, `HomeCarousel.tsx`, `App.tsx`) and `TimerWrapper.tsx`, which depends on a hook that is not part of this model. `prod-server/models/Room.ts` is only a type declaration.
- Strings:
  - Lengths count code points, where JavaScript counts UTF-16 units.
  - `toUpperCase`/`toLowerCase` are modelled on ASCII letters only.
  - `trim` uses JavaScript's whitespace set.
- RoomRelay.Relay.OnTimerStart, RoomRelay.Relay.OnTimerTick and RoomRelay.Relay.OnEmojiSend: the payload is a record with its properties. A `null` or `undefined` payload makes the destructuring in the handler throw (server.ts lines 32, 40 and 44); that path is not modelled.
- RoomRelay.Relay.OnJoinRoom, RoomRelay.Relay.OnTimerPause and RoomRelay.Relay.Emit: a room is one string. Socket.io's `join` and `to` also accept an array of rooms (server.ts lines 27 and 29); that form is not modelled.
- TaskList.TaskItem: rows are separate objects, not created by `TaskList.TaskListView`. The parent's re-render is `ReceiveTask`; mounting a row for a new task and unmounting the row of a deleted one are not modelled.
- RoomValidator.Validate: Joi's conversion of numeric strings to numbers (`convert: true`) is not modelled. A duration sent as the string "25" is refused here, while Joi would accept it.
- RoomModel.RoomDocument.Save: Mongoose's casting of values to the schema types is not modelled. Only the validators are, on already-typed fields.
- RoomAuthController.VerifyRoomPassword: `findById` is a parameter. The `CastError` of a malformed id is one of its throwing answers.
