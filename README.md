# Work planner and voice capture: a Dafny model

This project models the three parts of the todo planner and screen-and-voice recorder app that hold logic:

- **The capture session controller** (`components/VoiceRecorder.tsx`), in `VoiceRecorder.dfy`.
  - The component keeps its session in mutable references: the stream, the recorder, the chunk buffer and the two timer handles, plus `isRecording` and `duration`.
  - These are the fields of the class `CaptureController`.
  - Each platform event is a method: a chunk arriving, the one-second tick, the 20-minute rotation, the delayed 100 ms restart, and the screen share ending.
  - The media objects are two small classes, `MediaStream` and `MediaRecorder`. Modelling them as objects lets a restart be shown to keep the same stream object.
  - The host's timers are a set of armed handles.
  - The segments handed to the upload pipeline are the sequence `uploads`.
  - What one upload does to the store is the pure function `SaveAndUpload`.
  - `formatTime` is the pure function `FormatTime`. It is partnered by a reader `ReadTime` and a round-trip lemma.
- **The global store** (`store/useStore.ts`), in `AppStore.dfy`. Every action is a function from the state record to the next state record. Lemmas cover:
  - what changes and what does not;
  - unknown ids;
  - toggling twice;
  - updates commuting.
- **The schedule view** (`components/ScheduleView.tsx`), in `ScheduleView.dfy`.
  - The grouping `forEach` is the method `GroupByHour`. Its loop is proved to compute `Buckets`, the map from each occurring hour to the tasks at that hour.
  - The rendering is a filter over the hours 0..23, followed by one row per shown hour.
  - The row of an hour holds at most four cards and a free-slot flag.
- `Types.dfy` holds the record shapes of `types.ts`.
- `Text.dfy` holds two JavaScript string operations and a reader used as their partner:
  - `Number.prototype.toString` on non-negative integers;
  - `String.prototype.padStart`;
  - the decimal reader `Value`.

Behaviour the model keeps from the code, where one might expect a stop to cancel every pending callback:

- `stopRecording` cancels both repeating timers. It does not cancel the 100 ms restart that a rotation schedules (`components/VoiceRecorder.tsx:155-157`).
  - The model keeps such restarts in `pendingRestarts`, and `StopRecording` leaves that counter alone.
  - While the session stays stopped, such a restart meets the missing stream in the safety check and changes nothing (`RestartFire`, `StopBeforeRestart`).
  - If a fresh session has started before it fires, the restart opens a recorder on the new stream and replaces the fresh recorder. The fresh recorder is left recording with nothing referring to it (`StaleRestartOrphansFreshRecorder`).

## Model

| member | source | states |
|---|---|---|
| Types.SizePositiveIffHasParts | components/VoiceRecorder.tsx:125-126 | a blob joined from non-empty chunks has positive size exactly when there is at least one chunk, and its size is at least the number of chunks |
| Text.Decimal | components/VoiceRecorder.tsx:179 | `toString` of a non-negative integer is a non-empty digit string without a leading zero; it has one digit below 10 and at most two below 100 |
| Text.DecimalRoundTrip | components/VoiceRecorder.tsx:179 | reading the decimal rendering of `n` back gives `n` |
| Text.PadStart | components/VoiceRecorder.tsx:179 | `padStart` reaches the requested width (or keeps a longer string), ends with the original string and has only fill characters before it |
| Text.ZeroPadValue | components/VoiceRecorder.tsx:179 | zero padding keeps a digit string a digit string with the same value |
| Text.ZeroPadded | components/ScheduleView.tsx:55 | `n.toString().padStart(w, '0')` is a digit string denoting `n`, at least `w` long; exactly 2 long for `n < 100`, `w = 2`; at least 3 long for `n >= 100` |
| AppStore.Initial | store/useStore.ts:25-28 | the store starts with no tasks, no recordings, not loading and no error |
| AppStore.SetTodos | store/useStore.ts:30 | `setTodos` replaces the task list and leaves recordings, loading flag and error alone |
| AppStore.AddTodo | store/useStore.ts:31 | `addTodo` appends: one longer, the old list is a prefix, the new task is last, other fields unchanged |
| AppStore.ToggleAll | store/useStore.ts:33-35 | the `map` keeps length, order, id, title, hour and colour of every task, and flips `completed` exactly where the id matches |
| AppStore.ToggleTodo | store/useStore.ts:32-36 | `toggleTodo` flips `completed` on matching tasks, leaves every other task and every other field unchanged |
| AppStore.ToggleUnknownIsNoOp | store/useStore.ts:32-36 | toggling an id that no task carries leaves the state as it was |
| AppStore.ToggleTwiceIsIdentity | store/useStore.ts:32-36 | toggling the same id twice gives back the original state |
| AppStore.ToggleCommutes | store/useStore.ts:32-36 | toggles of two ids can be applied in either order |
| AppStore.ToggleAllUnknown | store/useStore.ts:33-35 | the toggle `map` is the identity on a list without the id |
| AppStore.AddRecording | store/useStore.ts:38 | `addRecording` prepends: the new entry first, then the old history unchanged, other fields unchanged |
| AppStore.SetStatusAll | store/useStore.ts:40-42 | the `map` keeps length, order and every field but `status`, and sets `status` exactly where the id matches |
| AppStore.UpdateRecordingStatus | store/useStore.ts:39-43 | `updateRecordingStatus` changes only the status of matching entries; other entries and other fields are unchanged |
| AppStore.UpdateUnknownIsNoOp | store/useStore.ts:39-43 | an update for an id no recording carries leaves the state as it was |
| AppStore.UpdatesCommute | store/useStore.ts:39-43 | updates for different ids commute, so uploads may finish in either order |
| AppStore.LaterUpdateWins | store/useStore.ts:39-43 | of two updates for the same id, only the later status remains |
| AppStore.SetLoading | store/useStore.ts:45 | `setLoading` changes only `isLoading` |
| AppStore.SetError | store/useStore.ts:46 | `setError` changes only `error` |
| AppStore.CompletedCount | App.tsx:11 | the completed count never exceeds the number of tasks |
| AppStore.ToggleMovesCountByOne | App.tsx:11 | toggling a task whose id is unique moves the completed count by exactly one, down if it was completed and up otherwise |
| ScheduleView.TodosAt | components/ScheduleView.tsx:29-35 | a bucket is no longer than the task list and holds only tasks of its hour |
| ScheduleView.TodosAtMembers | components/ScheduleView.tsx:29-35 | a task is in the bucket of `h` exactly when it is one of the tasks and its hour is `h` |
| ScheduleView.BucketOfAbsentHour | components/ScheduleView.tsx:31-33 | an hour that no task carries gets no bucket contents |
| ScheduleView.GroupByHour | components/ScheduleView.tsx:29-35 | the grouping loop creates a key for exactly the hours that occur, and each key's list is that hour's tasks in original order |
| ScheduleView.BucketIsOrderedSubsequence | components/ScheduleView.tsx:29-35 | each bucket is the task list with the other hours deleted: ascending positions, exactly the positions of tasks at that hour |
| ScheduleView.BucketSizesSnoc | components/ScheduleView.tsx:34 | pushing one more task grows exactly the buckets of its hour, by one each |
| ScheduleView.OccursOnce | components/ScheduleView.tsx:29 | each hour is one key of the map: a value in a list without repeats occurs once |
| ScheduleView.GroupingKeepsEveryTask | components/ScheduleView.tsx:29-35 | no task is dropped or duplicated: over distinct hours covering every task, the bucket sizes add up to the number of tasks |
| ScheduleView.EmptyBucketSizes | components/ScheduleView.tsx:29 | with no tasks every bucket is empty |
| ScheduleView.Hours | components/ScheduleView.tsx:26 | the hour list is 0, 1, ..., 23 in order, and holds exactly the integers from 0 to 23 |
| ScheduleView.HourLabel | components/ScheduleView.tsx:55 | an hour's label is five characters: two digits denoting the hour, then ":00" |
| ScheduleView.RenderRow | components/ScheduleView.tsx:45-86 | a row shows the first min(4, n) tasks of its hour in order, and the free-slot placeholder exactly when the hour has no task |
| ScheduleView.ShownHours | components/ScheduleView.tsx:42-48 | an hour is kept exactly when it is listed and is a work hour (8-20) or has tasks |
| ScheduleView.ShownHoursAscending | components/ScheduleView.tsx:42-48 | filtering the ascending hour list keeps it ascending |
| ScheduleView.LookupBucket | components/ScheduleView.tsx:45 | the lookup with its empty-list default, after the loop, is that hour's tasks for every hour |
| ScheduleView.Render | components/ScheduleView.tsx:42-91 | the `hours.map` gives one row per hour of 0..23 that is shown, in strictly ascending hour order, and each row is the row of its own hour |
| ScheduleView.RowsOfShownHours | components/ScheduleView.tsx:42-48 | mapping an ascending list of hours to rows gives a row for exactly the listed hours, in ascending order |
| ScheduleView.ShownIffWorkOrTask | components/ScheduleView.tsx:45-48 | after grouping, an hour is shown exactly when it is a work hour or some task has that hour |
| ScheduleView.Schedule | components/ScheduleView.tsx:26-91 | the rows for a task list are exactly the hours in 0..23 that are work hours or have a task, strictly ascending, each rendered from its own hour's bucket |
| ScheduleView.ScheduleRowContents | components/ScheduleView.tsx:42-86 | every row's hour is in 0..23, its cards are the first min(4, n) tasks of that hour, and a placeholder row is always a work hour |
| ScheduleView.OutOfRangeTaskNeverShown | components/ScheduleView.tsx:26-48 | a task whose hour is outside 0..23 is grouped but appears in no row |
| ScheduleView.MockNineOClock | services/api.ts:13-14 | the two 9:00 tasks of the mock list form the 9:00 bucket, in list order |
| ScheduleView.MockTwoPm | services/api.ts:17-18 | the two 14:00 tasks of the mock list form the 14:00 bucket, in list order |
| ScheduleView.MockTwoPmRow | services/api.ts:17-18 | the 14:00 row of the mock schedule shows both 14:00 tasks |
| VoiceRecorder.ChooseMimeType | components/VoiceRecorder.tsx:114-116 | the vp8/opus container when the host supports it, plain webm otherwise |
| VoiceRecorder.FinalSegment | components/VoiceRecorder.tsx:124-131 | the stop handler hands over one blob of the buffered chunks when its size is positive (exactly when a chunk was buffered), and nothing otherwise |
| VoiceRecorder.MediaStream.StopTracks | components/VoiceRecorder.tsx:69 | stopping every track ends the stream |
| VoiceRecorder.CaptureController.constructor | components/VoiceRecorder.tsx:9-16 | a new component is stopped: no stream, recorder or timer, duration 0, empty buffer |
| VoiceRecorder.CaptureController.HandleDataAvailable | components/VoiceRecorder.tsx:20-24 | a chunk is appended only when its size is positive; a zero-size chunk leaves the buffer unchanged |
| VoiceRecorder.CaptureController.OnStop | components/VoiceRecorder.tsx:124-131 | the segment is handed over only when non-empty, and the buffer is empty afterwards in both cases |
| VoiceRecorder.CaptureController.StopRecorder | components/VoiceRecorder.tsx:61-63 | stopping a recorder runs its stop handler with the recorder's own mime type |
| VoiceRecorder.CaptureController.StopRecording | components/VoiceRecorder.tsx:49-74 | afterwards no timer is armed, recorder, stream and timer refs are null and `isRecording` is false. The old stream's tracks are stopped. A segment is finalised only if the recorder was recording. Duration is kept. A second call changes nothing |
| VoiceRecorder.CaptureController.ClearTimers | components/VoiceRecorder.tsx:50-58 | both timers are cancelled at the host and their refs cleared |
| VoiceRecorder.CaptureController.ReleaseRecorder | components/VoiceRecorder.tsx:60-65 | the recorder is stopped only when recording, and the ref is dropped |
| VoiceRecorder.CaptureController.ReleaseStream | components/VoiceRecorder.tsx:68-71 | the stream's tracks are stopped and the ref is dropped |
| VoiceRecorder.CaptureController.SetInterval | components/VoiceRecorder.tsx:142-148 | arming a timer returns a new positive handle that the host now holds |
| VoiceRecorder.CaptureController.StartRecording | components/VoiceRecorder.tsx:76-167 | a failed acquisition or a missing or inactive stream ends stopped as `stopRecording` does: a recording recorder hands over its segment, otherwise buffer and uploads are kept, and the tracks of the stream in hand are stopped, while a previous stream replaced by an inactive new one is left untouched. Otherwise a fresh recorder starts on the stream with an empty buffer, and the previous recorder is dropped untouched. A fresh start creates a new stream, resets duration to 0 and arms exactly one tick and one rotation timer with the next two handles. A restart keeps the stream object unchanged, and keeps duration, recording flag, both timers and the handle counter |
| VoiceRecorder.CaptureController.OpenRecorder | components/VoiceRecorder.tsx:118-133 | the new recorder is bound to the given stream and mime type, is recording, and the buffer is empty |
| VoiceRecorder.CaptureController.ArmTimers | components/VoiceRecorder.tsx:136-159 | a fresh start marks the session recording, resets duration and leaves exactly the two newly armed timers, using two new handles |
| VoiceRecorder.CaptureController.Tick | components/VoiceRecorder.tsx:142-144 | each tick adds one second to the duration |
| VoiceRecorder.CaptureController.RotationFire | components/VoiceRecorder.tsx:148-158 | a recording recorder is stopped, its segment handed over and one restart scheduled; an idle recorder is left alone; stream, duration and timers are untouched |
| VoiceRecorder.CaptureController.RestartFire | components/VoiceRecorder.tsx:155-157 | the delayed restart reopens a recorder on the same, still active stream with duration and timers as they were, dropping the previous recorder and leaving the stream untouched. When the stream is gone or inactive it ends stopped as `stopRecording` does: the recorder is made inactive, a recording recorder hands over its segment, otherwise buffer and uploads are kept, so a restart after a stop changes nothing but the pending count |
| VoiceRecorder.CaptureController.OnDisplayTrackEnded | components/VoiceRecorder.tsx:99-102 | ending the screen share stops the session as `stopRecording` does: tracks stopped, a recording recorder hands over its last segment, duration, handles and pending restarts kept, nothing changes when already stopped |
| VoiceRecorder.RotateOnce | components/VoiceRecorder.tsx:148-158 | one rotation of a running session hands over exactly the buffered chunks plus the new one and reopens recording with a new recorder on the same stream, leaving duration, both timers, the armed set and the handle counter as they were |
| VoiceRecorder.StopBeforeRestart | components/VoiceRecorder.tsx:49-74 | a stop within 100 ms of a rotation keeps the rotation's segment, and the restart firing afterwards leaves the session stopped with no further hand-over |
| VoiceRecorder.StaleRestartOrphansFreshRecorder | components/VoiceRecorder.tsx:155-157 | rotation, stop and a fresh start before the restart fires: the restart replaces the fresh recorder, which stays recording on the stream without a reference |
| VoiceRecorder.SaveAndUpload | components/VoiceRecorder.tsx:26-47 | one new entry at the head of the history, with status queued, then uploading, then uploaded or failed; no retry; with a fresh id the rest of the history is untouched |
| VoiceRecorder.FailedUploadDoesNotBlockNext | components/VoiceRecorder.tsx:39-46 | after a failed upload the next segment still gets its own entry and terminal status, and the failed entry keeps `failed` |
| VoiceRecorder.FormatTime | components/VoiceRecorder.tsx:176-180 | the display has at least five characters with ':' third from the end, and is exactly `mm:ss` below 6000 seconds |
| VoiceRecorder.FormatTimeFields | components/VoiceRecorder.tsx:177-179 | the field before the colon reads as the whole minutes, the two digits after it as the remaining seconds |
| VoiceRecorder.FormatTimeRoundTrip | components/VoiceRecorder.tsx:176-180 | reading the display back gives the number of seconds: minutes times 60 plus seconds |

## Left out

- React rendering is not modelled: JSX markup, CSS classes, hooks wiring and tab switching carry no logic to state.
- Browser media APIs are abstracted.
  - A stream is an object with an `active` flag.
  - A recorder is an object with a state and a mime type.
  - Chunks and blobs are sequences of sizes.
  - Whether vp8/opus is supported is a boolean parameter.
  - The two permission prompts are one `Acquisition` parameter.
- Real timers and elapsed time are not modelled. Ticks, rotations and the 100 ms restart are explicit events, and nothing bounds how often they come.
- `crypto.randomUUID` and `Date.now` are parameters of `SaveAndUpload`. The network outcome of `services/api.ts` (a random failure) is a boolean parameter. `alert` and `console` are left out.
- Asynchronous interleaving is not modelled.
  - `saveAndUpload` is modelled as the three store states it passes through, not interleaved with other events.
  - The loading effect around `fetchTodos` (`components/ScheduleView.tsx:9-23`) is left out.
  - Out-of-order completion is covered only by `UpdatesCommute`.
- VoiceRecorder.SaveAndUpload: the recorded `duration` is a parameter, and nothing is claimed about its value. The component reads it from a closure that is stale in practice.
- The microphone stream of a start whose screen prompt is refused is not modelled. The code does not release it.
- The recorder's stop events are not modelled as asynchronous. `StopRecorder` runs the stop handler inside `stop()`, so a segment is always handed over before the next recorder opens. In the browser, `dataavailable` and `stop` arrive later, which is why the code waits 100 ms before restarting (`components/VoiceRecorder.tsx:152-157`). The model cannot show a stop event that arrives after the restart has emptied the buffer (`components/VoiceRecorder.tsx:120`).
- An exception thrown by the recorder constructor is not modelled. The acquisition is the only failure source of `StartRecording`.
- Text.Decimal: integers are unbounded. JavaScript numbers are doubles, and `toString` switches to exponent notation from 10^21 on; such values are not modelled.
- VoiceRecorder.CaptureController.RestartFire: does not promise that a restart only affects the session whose rotation scheduled it. The code gives no such guarantee, and `StaleRestartOrphansFreshRecorder` shows the orphaned recorder.
- VoiceRecorder.FormatTime: defined for non-negative seconds only; the duration is never negative.
- Task hours are integers. A fractional or non-numeric `hour` key of the JavaScript record is not modelled.
- The progress bar width (`App.tsx:71`) is floating-point division and is left out.
- The unmount cleanup (`components/VoiceRecorder.tsx:170-174`) calls `stopRecording` exactly as the track-ended observer does, so `OnDisplayTrackEnded` covers both.
