# Recording Whisper menubar: a verified model of its services

This project models the service layer of a menubar app that records or imports audio and sends it to a Whisper transcription backend. A recording or import becomes a task. A task moves through a fixed state machine: PENDING, RECORDING, SAVED, IN_TRANSCRIB, COMPLETED, FAILED. A transcription of a task can be exported as TXT, JSON, SRT or VTT.

The project has one module per service:

| module | file | source |
|---|---|---|
| `Types` | `types.dfy` | shared enums, records and error classes (`src/shared/types.ts`) |
| `Text` | `text.dfy` | the JavaScript string built-ins the services rely on: `toString`, `padStart`, `toLowerCase`, `String.replace` with a string pattern |
| `TaskRegistry` | `task_registry.dfy` | `TaskManager` |
| `Export` | `export_format.dfy` | the SRT/VTT/TXT/JSON renderers of `TranscriptionManager` |
| `Transcription` | `transcription.dfy` | `TranscriptionManager` |
| `Backends` | `backends.dfy` | `TranscriptionAPIFactory`, `OpenAIWhisperAPI`, `CustomWhisperAPI` |
| `Config` | `config.dfy` | `ConfigManager` |
| `Recorder` | `recorder.dfy` | `AudioRecorder` |
| `Files` | `files.dfy` | `FileManager` |
| `Migration` | `migration.dfy` | `DatabaseMigration` |
| `RecordingControl` | `duration.dfy` | `formatDuration` of the recording panel |

**How state is modelled.** Each service that updates fields in place is a `class`:
- `TaskManager`, `TranscriptionManager`, `ConfigManager`, `AudioRecorder`, `FileManager` and `DatabaseMigration`.
- Database tables are `map` or `seq` fields. The file system is a map from the path of each regular file to its size, modification time and permissions; directories are not entries of it (directory sizes are computed over a separate tree of entries).
- Each method is proved against a function that specifies its effect.
- The properties are lemmas about those specification functions.

**Inputs instead of I/O.** Things the services cannot control are parameters:
- the clock, generated ids, and the text of a date;
- what a backend answers, whether a copy, an unlink or a database write succeeds, whether writing a recording, a transcript or an export succeeds, and what a directory listing returns.

**Units.** Timestamps are whole milliseconds, and a transcription segment's start and end are whole milliseconds. A transcription result's processing time is in seconds (the `elapsed` argument of `CompleteSpec`), passed in as a whole number.

**Behaviour as the code has it.** Where what the code does differs from what its names, comments or the evident purpose of a field suggest, the model follows what the code does:
- `updateTask` only writes title, description and metadata. So the transcription location that a completed run passes in is dropped, and a task that had no location before the run still has none after it, so its result cannot be found.
- The shortcut pattern allows at most one modifier. Every default binding (`CommandOrControl+Shift+…`) is therefore refused when written back.
- `initialize` asks for an active backend row of type `openai`, but both seeded rows are of type `whisper`: the database setup seeds an active one, the configuration store an inactive one. A fresh installation therefore has no client.
- `stopTranscription` moves the task to FAILED through the transition table. A task that is already FAILED cannot move again, so the stop reports an error after cancelling the queue entry.
- `setConfig` looks for a protected system row only in the category it is asked to write. A row is stored per key, so writing a system key under another category replaces the system row.
- `saveAudioFile` calls the `async` `getConfig` without `await`. The Promise it gets is truthy, so the `process.cwd()` fallback is never used and `path.join` throws. Every `stopRecording` that passes its guard therefore fails, after it has already stopped the MediaRecorder and cleared the timers. `setRecordingDevice` during a recording fails too, and never sets the device.

## Model

| member | source | states |
|---|---|---|
| Types.ParseExportFormat | src/shared/types.ts:103-108 | a text names an export format exactly when it is one of TXT, JSON, SRT, VTT, and the format parsed has that name |
| Types.TaskStatesAreSix | src/shared/types.ts:2-9 | there are exactly six task states and their names are pairwise different |
| Types.ExportFormatsRoundTrip | src/shared/types.ts:103-108 | every export format is listed and parses back from its own name |
| Types.ErrorCodesAndCategories | src/shared/types.ts:198-229 | each error class carries its fixed code and category (DATABASE_ERROR/DATABASE, FILE_ERROR/FILE, API_ERROR/API) and a plain error has no code |
| Types.Validation | src/shared/types.ts:245-248 | a validation result is valid exactly when its error list is empty |
| Text.NatToStringRoundTrip | src/main/services/TranscriptionManager.ts:458-465 | reading back the decimal text of a number gives the number |
| Text.PadNatRoundTrip | src/main/services/TranscriptionManager.ts:458-465 | zero-padding a number's text to any width keeps its value |
| Text.PadNatWidth | src/main/services/TranscriptionManager.ts:458-465 | a number below 10^w padded to width w is exactly w characters long |
| TaskRegistry.TransitionTableShape | src/main/services/TaskManager.ts:584-595 | no state moves to itself; every state except FAILED may move to FAILED; COMPLETED never returns to PENDING |
| TaskRegistry.TransitionPredecessors | src/main/services/TaskManager.ts:584-595 | only IN_TRANSCRIB reaches COMPLETED, only SAVED reaches IN_TRANSCRIB, only PENDING reaches RECORDING |
| TaskRegistry.EveryStateReachable | src/main/services/TaskManager.ts:584-595 | each of the six states is reachable from PENDING by allowed transitions |
| TaskRegistry.CompletionNeedsTranscription | src/main/services/TaskManager.ts:584-595 | every run from PENDING to COMPLETED passes through SAVED and then IN_TRANSCRIB |
| TaskRegistry.GenerateTaskTitle | src/main/services/TaskManager.ts:600-611 | a recorded task's title starts with 录音任务 and an imported one's with 导入任务 |
| TaskRegistry.NewTask | src/main/services/TaskManager.ts:181-238 | a new task is PENDING, has the given id, source, timestamps and generated title; its description and locations are the metadata entries of those names, or empty when absent, and its metadata is the given map or empty |
| TaskRegistry.AllowedKeys | src/main/services/TaskManager.ts:406-416 | only keys in the allow-list title, description, metadata are selected for an update |
| TaskRegistry.ApplyFieldsKeepsProtected | src/main/services/TaskManager.ts:397-446 | an update never changes a task's id, state, source, locations or timestamps |
| TaskRegistry.OnlyOtherKeysSelectNothing | src/main/services/TaskManager.ts:406-416 | updates that name only keys outside the allow-list select nothing and change nothing |
| TaskRegistry.Transition | src/main/services/TaskManager.ts:493-528 | a state change succeeds exactly when the task exists and the table allows the move; it then sets only that task's state and update time |
| TaskRegistry.Update | src/main/services/TaskManager.ts:397-446 | a missing task is an error; with no allowed key the table is unchanged; otherwise only that task gets the allowed fields and a new update time |
| TaskRegistry.TranscriptionLocUpdateIsNoOp | src/main/services/TaskManager.ts:406-416 | an update of transcriptionLoc alone changes nothing, because that key is outside the allow-list |
| TaskRegistry.UpdateKeepsStructure | src/main/services/TaskManager.ts:397-446 | a successful update keeps the set of tasks, every other task, and the updated task's state, source, locations and creation time |
| TaskRegistry.DeleteGuard | src/main/services/TaskManager.ts:451-463 | deletion is allowed exactly when the task exists and is neither RECORDING nor IN_TRANSCRIB |
| TaskRegistry.DropAudioOf | src/main/services/TaskManager.ts:466-469 | removing a task's audio rows keeps exactly the rows of other tasks, unchanged |
| TaskRegistry.DropResultsOf | src/main/services/TaskManager.ts:471-474 | removing a task's transcription rows keeps exactly the rows of other tasks, unchanged |
| TaskRegistry.InsertNewest | src/main/services/TaskManager.ts:296 | inserting a task into a listing adds exactly that task |
| TaskRegistry.InsertNewestKeepsOrder | src/main/services/TaskManager.ts:296 | inserting into a newest-first listing keeps it newest first |
| TaskRegistry.InsertNewestKeepsDistinct | src/main/services/TaskManager.ts:296 | inserting a task with a new id keeps the ids in a listing distinct |
| TaskRegistry.Page | src/main/services/TaskManager.ts:298-304 | limit 0 returns every row; a positive limit gives at most that many rows starting at the offset, a negative limit every row from the offset; a negative offset counts as 0, and an offset past the end gives none |
| TaskRegistry.AllHoldPush | src/main/services/TaskManager.ts:265-303 | adding a condition to the list narrows the selection to the rows that also meet it |
| TaskRegistry.BuildConditions | src/main/services/TaskManager.ts:265-303 | the condition list holds for a task exactly when the task matches the filters, and is empty exactly when no filter is set |
| TaskRegistry.TaskManager.CreateTask | src/main/services/TaskManager.ts:181-238 | stores the new task under its id, or fails with 创建任务失败 when the id is taken and stores nothing |
| TaskRegistry.TaskManager.GetTask | src/main/services/TaskManager.ts:339-392 | finds a task exactly when its id is stored, and returns the stored task |
| TaskRegistry.TaskManager.UpdateTask | src/main/services/TaskManager.ts:397-446 | the task table becomes what `Update` specifies, or stays unchanged with its error |
| TaskRegistry.TaskManager.DeleteTask | src/main/services/TaskManager.ts:451-488 | when the guard allows it, removes the task with its audio and transcription rows; otherwise returns the guard's error and changes nothing |
| TaskRegistry.TaskManager.UpdateTaskState | src/main/services/TaskManager.ts:493-528 | the task table becomes what `Transition` specifies, or stays unchanged with its error |
| TaskRegistry.TaskManager.Select | src/main/services/TaskManager.ts:296 | returns exactly the stored tasks the query selects, newest first, each once |
| TaskRegistry.TaskManager.GetTasks | src/main/services/TaskManager.ts:243-334 | lists exactly the stored tasks matching the filters, newest first, each once, then cuts the requested page |
| TaskRegistry.TaskManager.SearchTasks | src/main/services/TaskManager.ts:533-579 | lists exactly the stored tasks whose title, description, audio file name or model contains the query, newest first, each once |
| Export.ClockArithmetic | src/main/services/TranscriptionManager.ts:458-465 | the hour, minute, second and millisecond fields of a time recombine to that time |
| Export.ClockFieldValues | src/main/services/TranscriptionManager.ts:458-477 | the fields of a formatted time read back as its hours, minutes, seconds and milliseconds |
| Export.ClockRoundTrip | src/main/services/TranscriptionManager.ts:458-477 | a formatted time has the HH:MM:SS,mmm shape with minutes and seconds below 60, and decodes back to the same time |
| Export.SrtAndVttClocksAgree | src/main/services/TranscriptionManager.ts:458-477 | an SRT time and a VTT time agree except that SRT puts a comma before the milliseconds and VTT a dot |
| Export.SegmentsOf | src/main/services/TranscriptionManager.ts:421-453 | a result without a backend response has no segments |
| Export.CuesSplit | src/main/services/TranscriptionManager.ts:421-453 | the cues of two segment lists are the cues of the first followed by those of the second, numbered on |
| Export.CueAt | src/main/services/TranscriptionManager.ts:421-453 | the document holds segment i as cue number first + i, between the cues before and after it |
| Export.SrtCueAt | src/main/services/TranscriptionManager.ts:421-435 | in an SRT document, segment i appears as cue number i + 1 |
| Export.VttAppend | src/main/services/TranscriptionManager.ts:440-453 | VTT cues carry no number, so the cues of two lists concatenate |
| Export.CuesShift | src/main/services/TranscriptionManager.ts:440-453 | cues that ignore their number do not depend on where numbering starts |
| Export.SrtStep | src/main/services/TranscriptionManager.ts:421-435 | rendering one more segment appends exactly its SRT cue |
| Export.VttStep | src/main/services/TranscriptionManager.ts:440-453 | rendering one more segment appends exactly its VTT cue |
| Export.NoSegments | src/main/services/TranscriptionManager.ts:421-453 | with no segments, SRT is empty and VTT is the bare WEBVTT header |
| Export.WholeSecondClock | src/main/services/TranscriptionManager.ts:458-477 | a whole number of seconds below one minute renders as 00:00:SS with zero milliseconds |
| Export.TwoSegmentDocuments | src/main/services/TranscriptionManager.ts:421-453 | a two-segment SRT document is cues 1 and 2; a two-segment VTT document is the header and both cues |
| Export.TwoCues | src/main/services/TranscriptionManager.ts:421-453 | two segments render as two consecutively numbered cues |
| Export.GenerateSrt | src/main/services/TranscriptionManager.ts:421-435 | the loop builds exactly the SRT document of the result's segments |
| Export.GenerateVtt | src/main/services/TranscriptionManager.ts:440-453 | the loop builds exactly the VTT document of the result's segments |
| Export.Extension | src/main/services/TranscriptionManager.ts:268 | a file extension is a dot followed by the lower-cased format name |
| Export.Render | src/main/services/TranscriptionManager.ts:244-268 | an unknown format fails with 不支持的导出格式; a known format gives that format's body and extension |
| Export.ExportPath | src/main/services/TranscriptionManager.ts:269-274 | an export path lies in the export directory, is named after the task, and ends with the format's extension |
| Transcription.StartGuard | src/main/services/TranscriptionManager.ts:124-142 | a start is allowed exactly when the task exists, is SAVED and a client is set; each refusal has its own message |
| Transcription.StartSpec | src/main/services/TranscriptionManager.ts:124-162 | a started task becomes IN_TRANSCRIB and gets a fresh queue entry; a refused start changes nothing |
| Transcription.StopSpec | src/main/services/TranscriptionManager.ts:167-185 | a stop always cancels the queue entry, then moves the task to FAILED or reports why the move is not allowed |
| Transcription.FailSpec | src/main/services/TranscriptionManager.ts:375-389 | a failed run marks the entry failed with the message and the task FAILED, touching nothing else; when FAILED is not reachable nothing changes |
| Transcription.WaitVerdict | src/main/services/TranscriptionManager.ts:395-416 | waiting resolves on a completed entry, rejects on a missing, failed or cancelled one, and keeps polling otherwise |
| Transcription.ResultLookup | src/main/services/TranscriptionManager.ts:214-232 | a result is found exactly when the task exists, has a transcription location and that file exists; it is the file's content |
| Transcription.SeededConfigGivesNoClient | src/main/services/DatabaseManager.ts:308-321 | any table of whisper rows, active or not (the database setup seeds an active one here, the configuration store an inactive one at ConfigManager.ts:197-210), gives no openai row, so no client is made and a start fails with API客户端未初始化 |
| Transcription.CompleteSuccess | src/main/services/TranscriptionManager.ts:325-374 | a successful run whose transcript is written saves the result with its processing time and the task's id as its taskID, completes the entry at 100 percent and moves the task to COMPLETED |
| Transcription.CompleteWriteFailure | src/main/services/TranscriptionManager.ts:344-389 | when the transcript cannot be written, the task moves to FAILED, the entry records the write's message, and no transcript is stored |
| Transcription.CompleteFailure | src/main/services/TranscriptionManager.ts:375-389 | a failed backend call saves nothing, records its message and moves the task to FAILED |
| Transcription.StopFailedTaskThrows | src/main/services/TranscriptionManager.ts:167-185 | stopping a FAILED task cancels its entry and then reports the refused FAILED -> FAILED move |
| Transcription.LateSuccessAfterStop | src/main/services/TranscriptionManager.ts:325-390 | a run that finishes after a stop still writes its result file but leaves the task and the queue as they were |
| Transcription.ResultUnreachableAfterCompletion | src/main/services/TranscriptionManager.ts:352-354 | because the location update is filtered out, a completed task with no location still reports 转录结果不存在 |
| Transcription.WaitSettlesAfterStart | src/main/services/TranscriptionManager.ts:395-416 | after a started run completes, waiting no longer polls, and it resolves exactly when the run succeeded on a task with audio and its transcript was written |
| Transcription.FailedStartChangesNothing | src/main/services/TranscriptionManager.ts:294-320 | a batch entry whose start is refused leaves everything unchanged |
| Transcription.BatchContinuesAfterFailure | src/main/services/TranscriptionManager.ts:294-320 | after one task fails to start, a batch still completes the next task and reports only the first as failed |
| Transcription.BatchSplit | src/main/services/TranscriptionManager.ts:294-320 | a batch over two lists equals the batch over the first continued from its final state with the second, the failures of the two concatenated |
| Transcription.BatchContinuesAfterRefusedStart | src/main/services/TranscriptionManager.ts:301-310 | wherever in a batch an id's start is refused, it is logged as failed, nothing changes, and the batch goes on with the ids after it from the same state |
| Transcription.BatchFailedAreFailedRounds | src/main/services/TranscriptionManager.ts:294-320 | the ids the loop logs as failed are exactly those of the rounds that failed, in list order: a subsequence of the batch |
| Transcription.BatchFailedExactly | src/main/services/TranscriptionManager.ts:294-320 | with distinct ids, an id is logged as failed exactly when its own round, run from the state the earlier rounds leave, failed |
| Transcription.TranscriptionManager.Initialize | src/main/services/TranscriptionManager.ts:100-119 | with an active openai row the client is created from it; otherwise the client stays as it was |
| Transcription.TranscriptionManager.StartTranscription | src/main/services/TranscriptionManager.ts:124-162 | the state becomes what `StartSpec` specifies |
| Transcription.TranscriptionManager.StopTranscription | src/main/services/TranscriptionManager.ts:167-185 | the state and answer are what `StopSpec` specifies |
| Transcription.TranscriptionManager.GetTranscriptionStatus | src/main/services/TranscriptionManager.ts:190-201 | returns the queue entry, or a NOT_FOUND status at progress 0 for an unknown task |
| Transcription.TranscriptionManager.GetTranscriptionProgress | src/main/services/TranscriptionManager.ts:206-209 | returns the entry's progress, or 0 for an unknown task |
| Transcription.TranscriptionManager.GetTranscriptionResult | src/main/services/TranscriptionManager.ts:214-232 | answers as `ResultLookup` over the registry and the saved files |
| Transcription.ExportSpec | src/main/services/TranscriptionManager.ts:237-289 | a missing result, an unknown format and a failed write each fail, in that order, with their own message and nothing written; otherwise the body for the format is written at the export path, which is returned, and no other export changes |
| Transcription.TranscriptionManager.ExportTranscription | src/main/services/TranscriptionManager.ts:237-289 | the result and the exported files are what `ExportSpec` gives |
| Transcription.TranscriptionManager.Complete | src/main/services/TranscriptionManager.ts:325-390 | the state becomes what `CompleteSpec` gives for the backend's outcome and the transcript write |
| Transcription.TranscriptionManager.BatchTranscribe | src/main/services/TranscriptionManager.ts:294-320 | the loop runs every id in order, as `BatchSpec` specifies; `failed` stands for the ids the loop logs as failed, since the call itself returns nothing |
| Backends.CreateApi | src/main/services/TranscriptionAPI.ts:39-48 | openai and custom, in any letter case, give the matching client over the same configuration; anything else fails with Unsupported API type |
| Backends.CreateApiIgnoresCase | src/main/services/TranscriptionAPI.ts:39-48 | two configurations whose types differ only in case give the same kind of client |
| Backends.OpenAIHeaders | src/main/services/OpenAIWhisperAPI.ts:22-34 | the OpenAI client sends Authorization with a Bearer key, `Bearer null` for a NULL key, and Content-Type |
| Backends.OpenAIBaseUrl | src/main/services/OpenAIWhisperAPI.ts:28 | the configured URL is used, or the public OpenAI v1 URL when none is set |
| Backends.CustomHeaders | src/main/services/CustomWhisperAPI.ts:22-38 | the custom client always sends JSON and adds a Bearer Authorization header exactly when a non-empty key is set |
| Backends.CountWords | src/main/services/OpenAIWhisperAPI.ts:213-220 | a missing or empty text has no words; otherwise the count is the number of whitespace-separated runs |
| Backends.NonEmptyCountAppend | src/main/services/OpenAIWhisperAPI.ts:213-220 | counting non-empty pieces adds up over concatenation |
| Backends.RunsTrimStart | src/main/services/OpenAIWhisperAPI.ts:213-220 | leading whitespace does not change the number of runs |
| Backends.SplitCountsRuns | src/main/services/OpenAIWhisperAPI.ts:213-220 | splitting on whitespace gives as many non-empty pieces as there are runs |
| Backends.RunsAppendSpace | src/main/services/OpenAIWhisperAPI.ts:213-220 | a trailing whitespace character does not add a run |
| Backends.RunsTrimEnd | src/main/services/OpenAIWhisperAPI.ts:213-220 | trailing whitespace does not change the number of runs |
| Backends.CountWordsIsRuns | src/main/services/CustomWhisperAPI.ts:207-214 | trim, split on whitespace and keep the non-empty pieces counts exactly the runs of the original text |
| Backends.BlankHasNoWords | src/main/services/CustomWhisperAPI.ts:207-214 | text made only of whitespace has no words |
| Backends.RunsConcat | src/main/services/OpenAIWhisperAPI.ts:213-220 | the runs of a concatenation are those of the first part plus those of the second, read on from the first part's last character |
| Backends.RunsOfWord | src/main/services/OpenAIWhisperAPI.ts:213-220 | a word without whitespace is exactly one run when it follows whitespace |
| Backends.CountTwoWords | src/main/services/OpenAIWhisperAPI.ts:213-220 | two words separated by one space count as two |
| Backends.CountBlank | src/main/services/CustomWhisperAPI.ts:207-214 | whitespace-only text counts as no words |
| Backends.ChosenModel | src/main/services/OpenAIWhisperAPI.ts:93-107 | the request's model is the option when it is non-empty, otherwise the configured model |
| Backends.FormFields | src/main/services/OpenAIWhisperAPI.ts:93-107 | the form is file and model, then language, temperature and prompt, each present exactly when set and with its value; no field name occurs twice |
| Backends.OpenAIForm | src/main/services/OpenAIWhisperAPI.ts:93-107 | the form built entry by entry is `FormFields`; it starts with file and model, and language, temperature and prompt appear exactly when set, with their values |
| Backends.CustomRequestBody | src/main/services/CustomWhisperAPI.ts:101-107 | the custom request names the chosen model and passes the language, temperature and prompt through |
| Backends.ResultFrom | src/main/services/OpenAIWhisperAPI.ts:117-129 | a result keeps the response's language, confidence and raw response, counts its words and records the model and processing time |
| Backends.Transcribe | src/main/services/OpenAIWhisperAPI.ts:79-146 | a missing audio file fails before anything is sent; otherwise the OpenAI client sends the form `FormFields` and the custom client the JSON body; a backend error is passed on; a success gives the result built from the response |
| Backends.CustomProcessingTime | src/main/services/CustomWhisperAPI.ts:120 | the custom backend's processing time is the one it reports, or 0 |
| Backends.WhisperModels | src/main/services/OpenAIWhisperAPI.ts:152-173 | the model list keeps exactly the ids that start with whisper- |
| Backends.WhisperModelsAppend | src/main/services/OpenAIWhisperAPI.ts:159-161 | filtering distributes over concatenation, so order is kept |
| Backends.WhisperModelsIdempotent | src/main/services/OpenAIWhisperAPI.ts:159-161 | filtering a filtered list changes nothing |
| Backends.CustomModels | src/main/services/CustomWhisperAPI.ts:148-167 | a null body fails; a truthy models field is returned; a list body is returned itself; an empty text gives an empty list |
| Backends.TestConnection | src/main/services/OpenAIWhisperAPI.ts:179-198 | the connection is up exactly when the probe answers with status 200 |
| Config.DigitPrefix | src/main/services/ConfigManager.ts:626-643 | the leading digits of a text: all digits, and followed by a non-digit or the end |
| Config.HexPrefix | src/main/services/ConfigManager.ts:626-643 | the leading hexadecimal digits of a text: followed by a non-hex-digit or the end |
| Config.Magnitude | src/main/services/ConfigManager.ts:626-643 | a parsed unsigned value is never negative |
| Config.ParseIntOfDigits | src/main/services/ConfigManager.ts:626-643 | parseInt of a digit string is its decimal value |
| Config.ParseIntOfNegative | src/main/services/ConfigManager.ts:626-643 | parseInt of a minus sign and digits is the negated value |
| Config.ParseIntOfNumber | src/main/services/ConfigManager.ts:626-643 | parseInt of a whole number, written as its plain decimal text, is that number |
| Config.DigitPrefixOf | src/main/services/ConfigManager.ts:626-643 | the decimal prefix of digits followed by a non-digit is exactly those digits |
| Config.HexPrefixOf | src/main/services/ConfigManager.ts:626-643 | the hexadecimal prefix of hex digits followed by a non-hex-digit is exactly those digits |
| Config.ParseIntStopsAtNonDigit | src/main/services/ConfigManager.ts:626-643 | parseInt stops at the first non-digit: digits followed by other text read as the digits' value |
| Config.ParseIntOfHex | src/main/services/ConfigManager.ts:626-643 | parseInt reads a 0x or 0X prefix as hexadecimal, up to the first non-hex-digit |
| Config.ParseIntRefuses | src/main/services/ConfigManager.ts:626-643 | a text that starts with neither whitespace, a sign nor a digit gives NaN |
| Config.ParseIntOfBool | src/main/services/ConfigManager.ts:626-643 | a boolean setting gives NaN |
| Config.ValidateUiConfig | src/main/services/ConfigManager.ts:605-621 | a theme error is reported exactly when a theme is set to something other than light, dark, system; a language error exactly when a language is set to something other than zh-CN, en-US |
| Config.ValidateAudioConfig | src/main/services/ConfigManager.ts:626-643 | a format error exactly when a format is set and is not wav, mp3, m4a, flac; a sample-rate error exactly when a rate is set and parseInt of it is not 8000, 16000, 22050, 44100 or 48000 |
| Config.ValidateSystemConfig | src/main/services/ConfigManager.ts:648-657 | the system checks report no error, because the storage-path check never adds one |
| Config.ValidateConfig | src/main/services/ConfigManager.ts:575-600 | valid exactly when the error list is empty; ui and audio follow their rules; system is always valid; an unknown category fails with 未知的配置分类 |
| Config.ValidateUiExamples | src/main/services/ConfigManager.ts:605-621 | the dark theme is accepted and an invalid theme is refused |
| Config.ValidateAudioExamples | src/main/services/ConfigManager.ts:626-643 | wav is accepted and an invalid format is refused |
| Config.SampleRateNumbers | src/main/services/ConfigManager.ts:626-643 | a whole-number sample rate is valid exactly when it is one of the five supported rates |
| Config.ValidateUnknownExample | src/main/services/ConfigManager.ts:575-600 | the unknown category gets the single unknown-category error |
| Config.Plus | src/main/services/ConfigManager.ts:685-690 | each key adds a plus sign and one character |
| Config.KeysOf | src/main/services/ConfigManager.ts:685-690 | a run of "+key" groups decodes to its keys, and re-encodes to the same text |
| Config.PlusIsPlusKeys | src/main/services/ConfigManager.ts:685-690 | encoding upper-case letters and digits gives a well-formed run of "+key" groups |
| Config.ShortcutAccepted | src/main/services/ConfigManager.ts:685-690 | at most one modifier followed by "+" and upper-case letters or digits is a valid shortcut |
| Config.ShortcutParsed | src/main/services/ConfigManager.ts:685-690 | every valid shortcut is such an optional modifier and such keys, so the two lemmas give the shape exactly |
| Config.SecondModifierRefused | src/main/services/ConfigManager.ts:685-690 | no key beginning with CommandOrControl+Shift is valid, including the three default shortcuts |
| Config.LowerCaseRefused | src/main/services/ConfigManager.ts:685-690 | a lower-case word is not a valid shortcut |
| Config.GetApiConfig | src/main/services/ConfigManager.ts:484-512 | the row returned is stored, of the requested type and active; none is returned exactly when no such row exists |
| Config.Lookup | src/main/services/ConfigManager.ts:382-423 | a value is found exactly when the key is stored under that category |
| Config.CategoryValues | src/main/services/ConfigManager.ts:382-423 | the whole-category answer holds exactly the keys found by lookup, with their values |
| Config.CachedAgreesWithLookup | src/main/services/ConfigManager.ts:363-423 | a coherent cache answers as the table does |
| Config.SetConfigValidatesFirst | src/main/services/ConfigManager.ts:428-437 | a value that fails validation is refused with a message starting 配置验证失败 |
| Config.SetConfigRefusesSystemRow | src/main/services/ConfigManager.ts:438-443 | a valid write to a system row of the same category is refused with 系统配置不允许修改 |
| Config.SetThenGet | src/main/services/ConfigManager.ts:428-479 | after a successful write, lookup and cache both give the new value and stay coherent |
| Config.SystemRowWritableFromOtherCategory | src/main/services/ConfigManager.ts:438-460 | the system-row check looks only in the requested category, so writing storagePath as ui replaces the system row while the system cache keeps the old value |
| Config.ShortcutUpdateKeepsKeysUnique | src/main/services/ConfigManager.ts:542-570 | a successful rebinding keeps keys unique, changes only that action, and keeps every other binding |
| Config.DefaultShortcutsUnique | src/main/services/ConfigManager.ts:212-240 | the three default bindings use different keys |
| Config.TwoModifierRebindRefused | src/main/services/ConfigManager.ts:542-570 | rebinding to a two-modifier key such as CommandOrControl+Shift+A is refused with 无效的快捷键格式 |
| Config.ConfigManager.GetConfig | src/main/services/ConfigManager.ts:382-423 | a single key is looked up in the table; a whole category comes from the cache, and is filled into the cache from the table when missing |
| Config.ConfigManager.SetConfig | src/main/services/ConfigManager.ts:428-479 | the table and cache become what the write specifies, or stay unchanged with its error |
| Config.ConfigManager.UpdateShortcut | src/main/services/ConfigManager.ts:542-570 | the bindings become what the rebinding specifies, or stay unchanged with its error |
| Recorder.Idle | src/main/services/AudioRecorder.ts:372-379 | the state after stop or cancel: not recording, not paused, zero duration and volume, no device |
| Recorder.DashStamp | src/main/services/AudioRecorder.ts:236 | the file-name stamp replaces every colon and dot with a dash and keeps every other character |
| Recorder.AudioRecorder.StartRecording | src/main/services/AudioRecorder.ts:121-202 | refused while recording or without the microphone; otherwise starts unpaused at zero with the device and start time, with no chunks and with the timers running |
| Recorder.AudioRecorder.OnData | src/main/services/AudioRecorder.ts:168-175 | a non-empty chunk is appended with its time; an empty one is dropped |
| Recorder.AudioRecorder.PauseRecording | src/main/services/AudioRecorder.ts:296-319 | pauses a running, unpaused recording; otherwise fails with 暂停录音失败 and changes nothing |
| Recorder.AudioRecorder.ResumeRecording | src/main/services/AudioRecorder.ts:324-347 | resumes a paused recording; otherwise fails with 恢复录音失败 and changes nothing |
| Recorder.AudioRecorder.CancelRecording | src/main/services/AudioRecorder.ts:352-392 | clears the timers, drops the chunks and returns to idle; fails with 取消录音失败 when not recording |
| Recorder.SaveAudioFile | src/main/services/AudioRecorder.ts:569-590 | a Promise in place of the directory, or a failed write, gives 保存音频文件失败; otherwise the file is saved under <appDir>/audio |
| Recorder.AppDirIntended | src/main/services/AudioRecorder.ts:572 | the intended directory is the configured one when it is a non-empty string, else the working directory |
| Recorder.SaveIntended | src/main/services/AudioRecorder.ts:569-590 | with the intended directory a successful write lands in <config>/audio, or <cwd>/audio when nothing is configured |
| Recorder.AudioRecorder.StopRecording | src/main/services/AudioRecorder.ts:207-291 | refused, changing nothing, when not recording or without a recorder; past that the timers are cleared, and a failed save fails with 停止录音失败 keeping the recording state; a successful save returns recording_<stamp>.wav at the saved path and returns to idle; with the directory as written every stop fails |
| Recorder.AudioRecorder.SetRecordingDevice | src/main/services/AudioRecorder.ts:431-458 | an unknown device is refused; while recording the stop fails, so the call fails and the device is not set; otherwise the device is set, even when the configuration write fails |
| Recorder.AudioRecorder.Destroy | src/main/services/AudioRecorder.ts:505-524 | cancels a running recording and releases the recorder and analyser; no timer is left running |
| Recorder.AudioRecorder.GetRecordingState | src/main/services/AudioRecorder.ts:397-399 | returns a copy of the state, which is consistent |
| Recorder.AudioRecorder.GetVolumeLevel | src/main/services/AudioRecorder.ts:404-415 | 0 unless recording with an analyser; then the analyser's reading |
| Recorder.AudioRecorder.GetRecordingDuration | src/main/services/AudioRecorder.ts:420-426 | 0 when idle; otherwise the whole seconds since the start, rounded down |
| Recorder.AudioRecorder.VolumeTick | src/main/services/AudioRecorder.ts:533-539 | only while the interval is set and the recording runs unpaused, stores the current volume; otherwise changes nothing |
| Recorder.AudioRecorder.DurationTick | src/main/services/AudioRecorder.ts:542-548 | only while the interval is set and the recording runs unpaused, stores the whole seconds since the start; otherwise changes nothing |
| Recorder.AudioInputs | src/main/services/AudioRecorder.ts:463-486 | the device list keeps only audio inputs, each with a non-empty label |
| Recorder.AudioInputsAppend | src/main/services/AudioRecorder.ts:470-477 | the list of a concatenation is the lists of its parts, in order |
| Recorder.AudioInputsOne | src/main/services/AudioRecorder.ts:470-477 | a device is listed exactly when it is an audio input, with its id, kind and group kept and its label as caption |
| Recorder.DeviceLabel | src/main/services/AudioRecorder.ts:475 | a device without a label is named 麦克风 followed by the first eight characters of its id |
| Recorder.AudioInputsIds | src/main/services/AudioRecorder.ts:463-486 | a device id is offered exactly when some audio input has it |
| Recorder.Ids | src/main/services/AudioRecorder.ts:436-440 | the id set of a device list holds exactly the ids of its devices |
| Files.Find | src/main/services/FileManager.ts:194 | a file is found exactly when its path exists, with its data |
| Files.TrimTrailingSlashes | src/main/services/FileManager.ts:208 | a path with its trailing slashes removed is a prefix of it that no longer ends in a slash |
| Files.LastIndex | src/main/services/FileManager.ts:208 | the last position of a character, or none when it does not occur |
| Files.Basename | src/main/services/FileManager.ts:152 | a base name contains no slash |
| Files.ExtName | src/main/services/FileManager.ts:208 | an extension is empty, or a dot followed by no further dot or slash |
| Files.ExtNameEndsBasename | src/main/services/FileManager.ts:208 | a non-empty extension is a proper suffix of the base name |
| Files.BasenameOf | src/main/services/FileManager.ts:152 | the base name of a directory, a slash and a slash-free name is that name |
| Files.ExtNameOf | src/main/services/FileManager.ts:208 | the extension of a stem, a dot and a dot-free ending is the dot and the ending, whatever dots the directory or the stem hold |
| Files.ExtNameOfHiddenFile | src/main/services/FileManager.ts:208 | a base name whose only dot leads it (".ogg") has no extension |
| Files.ExtNameIgnoresDirectories | src/main/services/FileManager.ts:208 | a dot-free base name has no extension, even when the directory has dots |
| Files.ExtNameIgnoresTrailingSlash | src/main/services/FileManager.ts:208 | a trailing slash changes neither the base name nor the extension |
| Files.LastIndexAfter | src/main/services/FileManager.ts:208 | the last occurrence is found when none follows it |
| Files.Screen | src/main/services/FileManager.ts:191-236 | a file passes exactly when it exists, is readable, has a supported lower-cased extension and a size in 1..100 MiB; each failure has its reason |
| Files.SizeBoundary | src/main/services/FileManager.ts:54 | 100 MiB is accepted, one byte more is too large, and an empty file is refused |
| Files.AnyCaseExtensionAccepted | src/main/services/FileManager.ts:207-211 | any letter case of a supported extension passes validation |
| Files.HiddenFileRefused | src/main/services/FileManager.ts:207-211 | a readable hidden file such as ".ogg" is refused as unsupported with an empty extension |
| Files.FormatOf | src/main/services/FileManager.ts:244-246 | the format is the extension without its dot |
| Files.AcceptedFormat | src/main/services/FileManager.ts:191-246 | a file that passes has one of the six supported formats, matching its lower-cased extension |
| Files.SupportedWithoutDot | src/main/services/FileManager.ts:51 | every supported extension is a dot and one of mp3, wav, m4a, flac, aac, ogg |
| Files.FileInfo | src/main/services/FileManager.ts:241-277 | the info of an existing file is its size and format with the fixed media facts; a missing file is an error |
| Files.CopyFailure | src/main/services/FileManager.ts:282-321 | a copy fails exactly when the source is missing, unreadable or the copy fails, and then changes nothing |
| Files.CopyPlacesFile | src/main/services/FileManager.ts:282-321 | a copy adds one file of the source's size at the target, changes no other file, and renames with a timestamp when the plain target exists |
| Files.RenamedDiffers | src/main/services/FileManager.ts:290-295 | the renamed target never collides with the plain one |
| Files.TargetNames | src/main/services/FileManager.ts:285-295 | a target is in the audio directory, named after the task, and keeps the source's extension |
| Files.WithoutPath | src/main/services/FileManager.ts:458-471 | removing a path's rows keeps exactly the rows of other paths |
| Files.DeleteOutcomes | src/main/services/FileManager.ts:326-352 | a missing file succeeds silently; a protected file or a failed unlink fails and changes nothing; otherwise the file goes, nothing else changes, and its rows go when the database write succeeds |
| Files.ExpiredPathsListed | src/main/services/FileManager.ts:387-415 | every expired path is listed, exists and is older than the age limit |
| Files.SweepRemovesExactlyExpired | src/main/services/FileManager.ts:387-415 | over existing distinct paths, the sweep deletes exactly the expired files and counts their number and size |
| Files.DistinctInit | src/main/services/FileManager.ts:387-415 | dropping the last listed path keeps the rest distinct and existing |
| Files.SweepOneMore | src/main/services/FileManager.ts:387-415 | one more listed path is deleted and counted exactly when it is expired |
| Files.RemoveAllKeeps | src/main/services/FileManager.ts:387-415 | removing a list of paths keeps every other file unchanged |
| Files.SweepOkOnlyIfListed | src/main/services/FileManager.ts:387-415 | the sweep only removes files, and succeeds only when every listed path exists |
| Files.SweepKeepsRecent | src/main/services/FileManager.ts:387-415 | a file younger than the limit survives unchanged |
| Files.SweepKeepsUnlisted | src/main/services/FileManager.ts:387-415 | a file not in the listing survives unchanged |
| Files.SweepStaysFailed | src/main/services/FileManager.ts:387-415 | after the first failure, later entries change nothing |
| Files.TempPaths | src/main/services/FileManager.ts:394-398 | each listed name is joined to the temporary directory |
| Files.TotalAppend | src/main/services/FileManager.ts:476-501 | file sizes add up over concatenation |
| Files.HealthySizeIsFileTotal | src/main/services/FileManager.ts:476-501 | with every entry readable, a directory's size is the sum of all files below it |
| Files.ListingIsFileTotal | src/main/services/FileManager.ts:476-501 | the same holds for any prefix of a directory's listing |
| Files.DirectoryErrors | src/main/services/FileManager.ts:476-501 | an entry that cannot be inspected makes the whole size 0; an unreadable subdirectory counts as 0 |
| Files.SameListingSize | src/main/services/FileManager.ts:476-501 | the size of a listing does not depend on which directory holds it |
| Files.CalculateDirectorySize | src/main/services/FileManager.ts:476-501 | the recursive loop computes the directory size, 0 for a missing directory |
| Files.SizeOfEntry | src/main/services/FileManager.ts:476-501 | the loop over a directory's entries computes its size |
| Files.GetStorageUsage | src/main/services/FileManager.ts:357-382 | each field is the size of its directory, and the available space is the fixed 1 GiB |
| Files.ImportedRecordFacts | src/main/services/FileManager.ts:140-170 | an accepted file that is copied yields a well-formed record whose file exists, and no file is lost |
| Files.ImportCopiedKeepsInv | src/main/services/FileManager.ts:140-170 | importing an accepted, copied file keeps the import invariant whether or not the row is saved |
| Files.ImportStepKeepsInv | src/main/services/FileManager.ts:126-186 | one import step keeps old files and rows and adds at most one well-formed record whose file exists |
| Files.ImportInvariant | src/main/services/FileManager.ts:126-186 | after importing, the rows are the old rows followed by the imported records, each well-formed and pointing at an existing file, at most one per path |
| Files.ImportSkipsInvalid | src/main/services/FileManager.ts:126-186 | paths that fail validation are skipped and change nothing |
| Files.ImportContinuesAfterFailure | src/main/services/FileManager.ts:126-186 | an invalid path does not stop the import of the next valid one |
| Files.FileManager.constructor | src/main/services/FileManager.ts:56-70 | the files, temp, audio and transcriptions directories are under the user-data directory |
| Files.FileManager.GetAudioFileInfo | src/main/services/FileManager.ts:241-277 | a file that passes validation has a supported format and an allowed size; a missing one is an error |
| Files.FileManager.CopyAudioFile | src/main/services/FileManager.ts:282-321 | the file system and answer become what the copy specifies |
| Files.FileManager.DeleteAudioFile | src/main/services/FileManager.ts:326-352 | the file system, rows and answer become what the deletion specifies |
| Files.FileManager.CleanupTempFiles | src/main/services/FileManager.ts:387-415 | an unreadable directory is an error; otherwise the loop sweeps the temporary directory with the seven-day limit and reports the count and size |
| Files.FileManager.ImportAudioFiles | src/main/services/FileManager.ts:126-186 | the loop imports every path as the import specifies |
| Migration.VersionList | src/main/services/DatabaseMigration.ts:52 | the versions of the version rows, in order |
| Migration.MaxVersion | src/main/services/DatabaseMigration.ts:52 | the highest recorded version is recorded and is at least every other |
| Migration.CurrentVersion | src/main/services/DatabaseMigration.ts:52-53 | 0 with no rows; otherwise the highest recorded version |
| Migration.VersionListAppend | src/main/services/DatabaseMigration.ts:60-93 | versions of concatenated rows concatenate |
| Migration.AppliesPendingInOrder | src/main/services/DatabaseMigration.ts:60-93 | when every script succeeds, the run executes and records exactly the pending migrations, in order |
| Migration.StaysFailed | src/main/services/DatabaseMigration.ts:60-93 | once a migration fails, later ones change nothing |
| Migration.FailureStopsRun | src/main/services/DatabaseMigration.ts:60-93 | the first failure ends the run with the database as it was before that migration |
| Migration.FailedScriptRolledBack | src/main/services/DatabaseMigration.ts:60-93 | a failing script leaves the database unchanged and reports its message |
| Migration.NothingPending | src/main/services/DatabaseMigration.ts:60-93 | migrations at or below the current version are skipped |
| Migration.RunRecordsPending | src/main/services/DatabaseMigration.ts:60-93 | a run only appends rows above the current version, and when it succeeds every pending version is recorded |
| Migration.CurrentVersionGrows | src/main/services/DatabaseMigration.ts:14-31 | appending higher versions never lowers the current version |
| Migration.SecondRunAppliesNothing | src/main/services/DatabaseMigration.ts:14-31 | after a successful run, running the same migrations again changes nothing |
| Migration.MigrateFreshAndAgain | src/main/services/DatabaseMigration.ts:14-113 | on a fresh database, migrating creates the version table and records version 1; migrating again changes nothing |
| Migration.ReplaceFirstAt | src/main/services/DatabaseMigration.ts:122-136 | replacing the first occurrence of a pattern changes only that occurrence |
| Migration.BackupBesideDatabase | src/main/services/DatabaseMigration.ts:122-136 | a backup of app.db is app_backup_<time>.db in the same place |
| Migration.BackupReplacesFirstOccurrence | src/main/services/DatabaseMigration.ts:122-136 | in a path `<dir>.db/<name>` whose directory part has no dot, the backup path is `<dir>_backup_<time>.db/<name>`: the same file name inside a sibling directory, so unless that directory exists the copy fails |
| Migration.BackupWithoutSuffix | src/main/services/DatabaseMigration.ts:122-136 | a path without .db gets the database's own path as its backup path |
| Migration.NoOccurrenceUnchanged | src/main/services/DatabaseMigration.ts:122-136 | a replacement without an occurrence changes nothing |
| Migration.JoinInInjective | src/main/services/DatabaseMigration.ts:157-176 | different names in a directory give different paths |
| Migration.BackupPathsAreBackups | src/main/services/DatabaseMigration.ts:157-176 | every path the cleanup considers is a listed backup file in the database's directory |
| Migration.CutoffIsAge | src/main/services/DatabaseMigration.ts:157-176 | a backup is old exactly when it was modified before the keep-days cutoff |
| Migration.CleanupSparesOtherNames | src/main/services/DatabaseMigration.ts:157-176 | a file whose name is not a backup name survives the cleanup unchanged |
| Migration.DatabaseMigration.GetCurrentVersion | src/main/services/DatabaseMigration.ts:33-58 | a failing query gives 0; a missing version table is created and gives 0; otherwise the highest recorded version |
| Migration.DatabaseMigration.ExecuteMigrations | src/main/services/DatabaseMigration.ts:60-93 | the loop leaves the database and answer as the run specifies |
| Migration.DatabaseMigration.Migrate | src/main/services/DatabaseMigration.ts:14-31 | reads the version and applies the migrations as specified |
| Migration.DatabaseMigration.Backup | src/main/services/DatabaseMigration.ts:122-136 | copies the database to its backup path and returns it; a missing database or failed copy is an error that writes nothing |
| Migration.DatabaseMigration.Restore | src/main/services/DatabaseMigration.ts:137-156 | a missing backup fails with 备份文件不存在; otherwise the database is closed and then overwritten by the backup, or the copy's error is returned |
| Migration.DatabaseMigration.CleanupOldBackups | src/main/services/DatabaseMigration.ts:157-176 | an unreadable directory changes nothing; otherwise the loop deletes exactly the old backup files of the database's directory |
| RecordingControl.JsRem | src/renderer/components/recording/RecordingControl.tsx:133-142 | JavaScript's remainder: its sign follows the dividend and its size is below the divisor |
| RecordingControl.JsRemCongruent | src/renderer/components/recording/RecordingControl.tsx:133-142 | the remainder differs from the dividend by a multiple of the divisor |
| RecordingControl.FormatDuration | src/renderer/components/recording/RecordingControl.tsx:133-142 | the label is at least five characters long |
| RecordingControl.TwoDigits | src/renderer/components/recording/RecordingControl.tsx:133-142 | a field below 100 becomes two digits with its value |
| RecordingControl.FormatDurationShape | src/renderer/components/recording/RecordingControl.tsx:133-142 | under an hour the label is MM:SS, from an hour on HH:MM:SS, with the minutes and seconds within the hour; 5 or 8 characters below 100 hours |
| RecordingControl.DurationRoundTrip | src/renderer/components/recording/RecordingControl.tsx:133-142 | reading the label back gives the duration, for every non-negative whole number of seconds |
| RecordingControl.NegativeDuration | src/renderer/components/recording/RecordingControl.tsx:133-142 | a negative input follows JavaScript's rounding: -5 seconds shows as -1:-5 |

## Left out

- Floating point. Segment times are whole milliseconds. The source's `formatTime` takes seconds as a float and takes the milliseconds as `Math.floor((s % 1) * 1000)`; that rounding is not modelled.
- RecordingControl.FormatDuration: covers whole seconds only. A fractional input is not modelled.
- Temperature: the transcription temperature is only passed through to the backend, so it is a value that no contract inspects.
- JSON. `JSON.stringify` and `JSON.parse` of results and configuration values are not modelled. An exported JSON body is the result itself.
- SQL. The left join of the listing and search queries can repeat a task when it has several audio files or results; the model lists each task once.
- LIKE patterns. `%` and `_` inside a search term are matched as plain characters.
- Case folding. `toLowerCase` is modelled on ASCII letters only.
- Media. Microphone access, the analyser's FFT, MediaRecorder, audio duration and ffmpeg are outside the model; what they answer is given to each operation.
- Timers and events. Whether the `setInterval` timers are set is the `ticking` field; one firing of each is `VolumeTick` or `DurationTick`, called explicitly. Event emitters and logging are not modelled.
- Identifiers. UUIDs, file ids and `Date.now()` are parameters.
- Windows paths. Paths are POSIX; `path.join` normalisation beyond joining with a slash is not modelled.
- Files.FileManager.CleanupTempFiles: assumes each `unlink` succeeds once the file has been inspected; a failing `unlink` is not modelled. The temporary directory is assumed to hold only regular files: a listed sub-directory is not in the file map, so the model ends the sweep with an error, where the source's `stat` succeeds on it and skips it while it is at most seven days old (an older one fails at `unlink`).
- Config.Value: numbers are whole and read as their plain decimal text. Fractional numbers are not modelled: `parseInt` truncates them, so the source accepts a sample rate such as 44100.5, which `SampleRateNumbers` does not cover. Numbers of magnitude 10^21 or more are not modelled either: `String` writes them in exponent notation, so `parseInt` reads only their first digit.
- Config.ParseIntOfNumber: holds for the model's numbers; for a whole number of magnitude 10^21 or more the source's `parseInt` gives its first digit instead.
- Files.GetStorageUsage: the four directories are independent snapshots, so the model does not capture that the app directory contains the other three.
- Files.FileManager.CopyAudioFile: the size comparison after the copy never fails in the model, because a modelled copy keeps the size.
- Backends.CustomRequestBody: the body carries the audio path; the base64 encoding of the file's content is not modelled.
- Backends: the HTTP client, retries and timeouts are not modelled; the backend's answer is a parameter.
- ConfigManager initialization: `initialize`, `createConfigTables`, `loadDefaultConfigs`, the `insert…IfNotExists` helpers, `validateAllConfigs` and `initializeCache` are not modelled. The default shortcuts are a constant; the seeded backend rows enter only through `SeededConfigGivesNoClient`, which covers any table of whisper rows.
- Config.ConfigManager: `getShortcuts` and the order of its rows are not modelled; the bindings are a map from action to key.
- Config.ConfigManager: `serializeConfigValue`, `getEventEmitter` and `cleanup` are not modelled; they hold no logic beyond I/O.
- Recorder.AudioRecorder: the `on`/`off` listener registration is not modelled.
- Recorder.AudioRecorder.StopRecording: when the save fails, the MediaRecorder has already been stopped but is still attached; the model keeps `hasRecorder` set and does not track that the attached recorder is inactive.
- Transcription.CompleteSpec: the division `(Date.now() - startTime) / 1000` and its fractional part are not modelled; the elapsed seconds are a whole-number parameter.
- Migration.DatabaseMigration: `updateVersion` is a no-op in the source and is not modelled. `getMigrations` is the constant `Migrations`, whose SQL is not interpreted.
- Migration.DatabaseMigration.CleanupOldBackups: assumes each `unlink` succeeds; a failed `stat` ends the cleanup silently, as in the source.
- TaskManager and FileManager `initialize`/`cleanup`, table creation and indexes are not modelled: they are I/O only.
