# MindStream core, modelled in Dafny

MindStream turns spoken or typed thoughts into structured tasks. The user speaks or types.
A speech recogniser produces a transcript. An AI text service structures the text into a JSON
task payload. The user reviews or edits the drafts. The confirmed tasks are stored per user
in a `tasks` table, and the dashboard and focus mode work on them. Per-user settings live in a
`user_settings` table: the chosen speech and text providers and models, and a dictionary of
API keys.

The model has one module per core source file. Four modules support them:

- `Wrappers` holds `Option` and `Result`.
- `Json` holds the values `JSON.parse` produces and JavaScript property reads on them.
- `Strings` holds the JavaScript string operations the code relies on: `trim`, `padStart`,
  `toString`, `parseInt` and `%`.
- `Types` holds the shared `Task` and `SubTask` records.

The rest:

- `AiProviders` is the provider catalogue, its capability filters and the lookups by id.
- `UserSettings` is the settings table as a `SettingsStore` object. It covers the defaulting
  read, the updates that fail through `.single()` when no row matches, and the key dictionary.
- `TextService` chooses the text service from the settings. It then turns the model's reply
  into the task payload: fences are stripped, the reply is parsed and the shape is checked.
- `SpeechService` chooses the speech recogniser and fixes the order in which it fails.
- `AudioRecorder` is the recording-time display.
- `TaskService` is the `tasks` table as a `TaskTable` object. `saveTasks` is a loop that stops
  at the first rejected insert. The other operations are `getUserTasks`, `updateTask` (with
  its field-by-field update payload) and `deleteTask`.
- `FocusPage` is the focus session: countdown, pause, subtask cursor and completion.
- `DashboardPage` covers the subtask checkbox, the active/completed split, card progress and
  the expanded cards.
- `ReviewPage` holds the immutable list edits of the review screen.
- `ResultPage` is the result screen over heap task objects. Its edits write through objects
  shared with the array the screen was given, as the source's do.
- `MindStreamApp` converts the payload into drafts and moves between screens.
- `LoadingPage` holds the stage configuration and what the loading screen shows.
- `SettingsPage` covers the model lists, badges, key cards, key visibility, the key-saving
  loop and key removal.

Everything the code cannot know in advance is a parameter of the operation:

- `JSON.parse`;
- the id generator and the clock;
- the answers of the database and of the AI and speech services;
- the browser's recogniser;
- the confirmation dialog;
- the signed-in user.

The model follows the code where it has quirks, because the code is what runs:

- A failed settings read inside `updateApiKey` replaces the whole key dictionary.
- Removing a key restores the page's earlier temporary keys on top of the reload.
- On the focus page a subtask stays marked completed after a failed write.
- On the result screen, cancelling an edit keeps it.

## Model

| member | source | states |
|---|---|---|
| AiProviders.FreeProviders | src/lib/aiProviders.ts:281-283 | the free providers are Google, the browser recogniser and Ollama, in catalogue order |
| AiProviders.TextProviders | src/lib/aiProviders.ts:291-293 | every provider except the browser recogniser supports text, in catalogue order |
| AiProviders.SpeechProviders | src/lib/aiProviders.ts:286-288 | the speech providers are OpenAI and the browser recogniser |
| AiProviders.GetFreeProviders | src/lib/aiProviders.ts:281-283 | no contract of its own; `AiProviders.FreeProviders` states its value |
| AiProviders.GetSpeechProviders | src/lib/aiProviders.ts:286-288 | no contract of its own; `AiProviders.SpeechProviders` states its value |
| AiProviders.GetTextProviders | src/lib/aiProviders.ts:291-293 | no contract of its own; `AiProviders.TextProviders` states its value |
| AiProviders.KeyedProviders | src/lib/aiProviders.ts:24-278 | the providers that need an API key are all but the browser recogniser and Ollama, in order |
| AiProviders.FindProvider | src/lib/aiProviders.ts:296-298 | `find` is undefined exactly when no provider has the id; otherwise it answers a listed provider with that id |
| AiProviders.FindProviderFirst | src/lib/aiProviders.ts:296-298 | `find` answers the first provider carrying the id |
| AiProviders.FindModel | src/lib/aiProviders.ts:301-304 | model `find` is undefined exactly when no model has the id; otherwise it answers a listed model with it |
| AiProviders.FindModelFirst | src/lib/aiProviders.ts:301-304 | model `find` answers the first model carrying the id |
| AiProviders.GetProviderById | src/lib/aiProviders.ts:296-298 | undefined exactly when the catalogue has no such id; otherwise a catalogue provider with that id |
| AiProviders.GetModelById | src/lib/aiProviders.ts:301-304 | undefined exactly when the provider is unknown or lacks the model; otherwise one of that provider's models with the id |
| AiProviders.CatalogueIdsDistinct | src/lib/aiProviders.ts:24-278 | provider ids are pairwise distinct |
| AiProviders.CatalogueModelIdsDistinct | src/lib/aiProviders.ts:24-278 | model ids are distinct within each provider |
| AiProviders.CatalogueModelTypesAgree | src/lib/aiProviders.ts:24-278 | a speech model belongs to a speech provider and a text model to a text provider |
| AiProviders.KeylessProvidersAreFree | src/lib/aiProviders.ts:224-277 | every provider that needs no key is free, and is the browser recogniser or Ollama |
| AiProviders.LookupFindsCatalogueEntry | src/lib/aiProviders.ts:296-298 | looking up a catalogue provider's id finds that very provider |
| AiProviders.KnownProviderIds | src/lib/aiProviders.ts:296-298 | the lookup succeeds for exactly the eight catalogue ids |
| UserSettings.Fetched | src/lib/userSettings.ts:39-68 | the read never fails: the stored row with a null key column read as `{}`; the defaults when there is no row or the read fails |
| UserSettings.Defaults | src/lib/userSettings.ts:24-34 | no contract of its own; `UserSettings.Fetched`, `UserSettings.DefaultSpeechModelResolves` and `UserSettings.DefaultTextModelResolves` state it |
| UserSettings.DefaultRow | src/lib/userSettings.ts:72-99 | no contract of its own; `UserSettings.AfterFetch` states when it is inserted |
| UserSettings.AfterFetch | src/lib/userSettings.ts:39-99 | the read adds the default row exactly when the read succeeded, found no row and the insert succeeded; other rows stay |
| UserSettings.KeysWritten | src/lib/userSettings.ts:104-128 | the key update succeeds exactly when the request succeeds and the user's row exists; that row gets the new key column and the `updated_at` stamp `now`, keeps its preferences, and every other row stays |
| UserSettings.PrefsWritten | src/lib/userSettings.ts:104-128 | the preference update succeeds exactly when the request succeeds and the row exists; that row gets the new preferences and the `updated_at` stamp `now`, keeps its key column, and every other row stays |
| UserSettings.LookupKey | src/lib/userSettings.ts:184-192 | an absent or empty key reads as null; any other key reads as itself |
| UserSettings.WithKey | src/lib/userSettings.ts:143-146 | the spread sets the provider's key and keeps every other entry |
| UserSettings.WithoutKey | src/lib/userSettings.ts:169-170 | the copy lacks the provider and keeps every other entry |
| UserSettings.SettingsStore.GetUserSettings | src/lib/userSettings.ts:39-68 | answers `Fetched`, and leaves the table as `AfterFetch` describes |
| UserSettings.SettingsStore.UpdateApiKeys | src/lib/userSettings.ts:104-128 | succeeds and writes the key column as `KeysWritten` says; otherwise the table is unchanged |
| UserSettings.SettingsStore.UpdatePreferences | src/lib/userSettings.ts:104-128 | succeeds and writes the preferences as `PrefsWritten` says; otherwise the table is unchanged |
| UserSettings.SettingsStore.UpdateApiKey | src/lib/userSettings.ts:133-155 | the read, then the write of the fetched dictionary with the provider's key set |
| UserSettings.SettingsStore.RemoveApiKey | src/lib/userSettings.ts:160-179 | the read, then the write of the fetched dictionary without the provider |
| UserSettings.SettingsStore.GetApiKey | src/lib/userSettings.ts:184-192 | the key lookup on the fetched dictionary; the read may insert the default row |
| UserSettings.SetThenGet | src/lib/userSettings.ts:133-192 | after a successful set of a non-empty key, `getApiKey` answers it; other providers read as before |
| UserSettings.RemoveThenGet | src/lib/userSettings.ts:160-192 | after a successful removal `getApiKey` answers null; other providers read as before |
| UserSettings.ReadErrorReplacesKeys | src/lib/userSettings.ts:133-155 | when the read inside `updateApiKey` fails, a successful write leaves only `{provider: key}` in the row, stamped with `now` |
| UserSettings.NoRowNoWrite | src/lib/userSettings.ts:104-128 | with no row and a failed insert, the update writes nothing |
| UserSettings.AfterWrite | src/lib/userSettings.ts:133-179 | no contract of its own; `UserSettings.SetThenGet`, `UserSettings.RemoveThenGet` and `UserSettings.ReadErrorReplacesKeys` state it |
| UserSettings.DefaultSpeechModelResolves | src/lib/userSettings.ts:24-34 | the default speech provider and model name a speech model of the catalogue |
| UserSettings.DefaultTextModelResolves | src/lib/userSettings.ts:24-34 | the default text provider and model name a text model of the catalogue |
| TextService.KeyedService | src/lib/textService.ts:341-381 | a keyed provider's service belongs to that provider and holds the key and model |
| TextService.CreateAIService | src/lib/textService.ts:331-389 | the checks, in order: unknown provider, then a missing key for a keyed provider, then a provider without a case; success exactly for a catalogue provider that has a keyed case and a usable key, or for Ollama; a keyed provider gets its own service with the stored key and `text_model`, Ollama gets `OllamaService(text_model)`; the missing-key error names the provider's label |
| TextService.KeyLabel | src/lib/textService.ts:341-379 | no contract of its own; `TextService.KeyLabels` states its values, and `TextService.CreateAIService` where it is used |
| TextService.Message | src/lib/textService.ts:337-387 | no contract of its own; the missing-key message embeds `TextService.KeyLabel`, whose values `TextService.KeyLabels` states |
| TextService.KeyLabels | src/lib/textService.ts:341-379 | each keyed provider's missing-key message names it as the source's literal does, `智谱AI` for zhipu, and no two keyed providers share a name |
| TextService.UnsupportedIsBrowserSpeech | src/lib/textService.ts:331-389 | the unsupported-service error happens exactly for the browser recogniser |
| TextService.DefaultSettingsUseGemini | src/lib/textService.ts:331-389 | the defaults give Gemini with `gemini-pro` when a Google key is stored; otherwise the missing-Google-key error |
| TextService.CleanResponse | src/lib/textService.ts:437-451 | the step-by-step cleaning equals the composition of trim, the fence strips and trim |
| TextService.Cleaned | src/lib/textService.ts:437-451 | no contract of its own; `TextService.JsonFenceRoundTrip`, `TextService.BareFenceRoundTrip`, `TextService.UnfencedReplyKeepsItsStart` and `TextService.UnfencedReplyIsTrimmed` state what it keeps and removes |
| TextService.UnfencedReplyKeepsItsStart | src/lib/textService.ts:437-451 | a trimmed reply that does not open with a fence is only cut at its end |
| TextService.UnfencedReplyIsTrimmed | src/lib/textService.ts:437-451 | a reply with no fence at either end is only trimmed |
| TextService.StripJsonFenceOf | src/lib/textService.ts:440-442 | the `json` fence strip removes the fence and the whitespace after it, and nothing more |
| TextService.StripOpenFenceOf | src/lib/textService.ts:443-445 | the bare fence strip removes the fence and the whitespace after it |
| TextService.StripCloseFenceOf | src/lib/textService.ts:446-448 | the closing strip removes the fence and the whitespace in front of it |
| TextService.BareFenceIsNotJsonFence | src/lib/textService.ts:440-445 | a bare fence before a payload not starting with `j` does not take the `json` branch |
| TextService.FenceTrim | src/lib/textService.ts:437 | whitespace around a text framed by backticks is all that `trim` removes |
| TextService.JsonFenceRoundTrip | src/lib/textService.ts:437-451 | a payload in a `json` fence, with any whitespace around and inside, cleans back to the payload |
| TextService.BareFenceRoundTrip | src/lib/textService.ts:437-451 | the same for a bare fence and a payload that does not start with `j` |
| TextService.CleanedExample | src/lib/textService.ts:437-451 | a fenced `{"tasks":[]}` reply cleans to the bare object |
| TextService.ValidatePayload | src/lib/textService.ts:460-464 | passes exactly an object whose `tasks` is an array (empty too), unchanged; `null` fails with a TypeError, anything else with the format error |
| TextService.Structured | src/lib/textService.ts:394-469 | a service-choice error is rethrown; a failed generation becomes its message; a reply that does not parse is the parse error; a parsed reply answers exactly what `ValidatePayload` answers for it |
| TextService.StructuredSucceedsExactly | src/lib/textService.ts:394-469 | the pipeline succeeds exactly when every step succeeds and the parsed reply is an object whose `tasks` is an array, and it then answers that parsed value |
| TextService.StructurizeText | src/lib/textService.ts:394-469 | the imperative pipeline answers what `Structured` specifies |
| SpeechService.WhisperForm | apps/web/src/lib/speechService.ts:57-69 | the upload goes to the transcription endpoint with the bearer key, `audio.webm`, `whisper-1` and `zh` |
| SpeechService.Message | apps/web/src/lib/speechService.ts:29-109 | no contract of its own; `SpeechService.CheckMessagesDistinct` states what it distinguishes |
| SpeechService.CheckMessagesDistinct | apps/web/src/lib/speechService.ts:89-109 | the messages of the unknown-provider, unsupported-browser, missing-key and unsupported-service checks are pairwise distinct |
| SpeechService.Whisper | apps/web/src/lib/speechService.ts:57-78 | a rejected `fetch` is its error; a response that is not ok is the status-text error; a body that does not parse is its error, and a `null` body throws on `text`; otherwise it succeeds with what `result.text` reads |
| SpeechService.WhisperTextReply | apps/web/src/lib/speechService.ts:75-76 | an ok reply whose body has a string `text` resolves to that string |
| SpeechService.TranscribeAudio | apps/web/src/lib/speechService.ts:83-115 | unknown provider exactly when not in the catalogue; browser: unsupported, the transcript as a string, or the recognition error; OpenAI: missing key or the Whisper result, failures included; unsupported exactly for the other known providers |
| SpeechService.ChecksComeBeforeServices | apps/web/src/lib/speechService.ts:83-115 | an unknown provider or a missing OpenAI key fails the same way whatever the recogniser and the upload would answer |
| SpeechService.BrowserIgnoresAudio | apps/web/src/lib/speechService.ts:93-98 | with the browser recogniser the recorded blob plays no part |
| SpeechService.TextOnlyProvidersUnsupported | apps/web/src/lib/speechService.ts:108-109 | the six text-only catalogue providers fail as unsupported |
| AudioRecorder.NonNegativeFields | src/lib/audioRecorder.ts:102-106 | for a non-negative duration the fields are the numerals of the quotient and remainder by 60 |
| AudioRecorder.FormatRecordingTimeReadsBack | src/lib/audioRecorder.ts:102-106 | the output is unpadded minutes, a colon and two digits below 60; the fields read back as the duration |
| AudioRecorder.FormatRecordingTime | src/lib/audioRecorder.ts:102-106 | no contract of its own; `AudioRecorder.FormatRecordingTimeReadsBack` and the examples below state its output |
| AudioRecorder.UnderTenMinutes | src/lib/audioRecorder.ts:102-106 | under ten minutes the display is `m:ss` with the digits of the minutes and seconds |
| AudioRecorder.FiveSeconds | src/lib/audioRecorder.ts:102-106 | 5 seconds shows as `0:05` |
| AudioRecorder.SixtyFiveSeconds | src/lib/audioRecorder.ts:102-106 | 65 seconds shows as `1:05` |
| AudioRecorder.TenMinutes | src/lib/audioRecorder.ts:102-106 | 600 seconds shows as `10:00` |
| AudioRecorder.MinusFiveSeconds | src/lib/audioRecorder.ts:102-106 | -5 seconds shows as `-1:-5`, keeping the signs of `Math.floor` and `%` |
| AudioRecorder.FormatRecordingTimeExamples | src/lib/audioRecorder.ts:102-106 | the four examples above, on literal inputs |
| Strings.JsRem | src/lib/audioRecorder.ts:104 | `%` takes the sign of the dividend and stays within the divisor's magnitude |
| Strings.ParseIntOfNatToString | apps/web/src/app/review/page.tsx:125 | `parseInt` reads back what `toString` writes for a non-negative integer |
| Strings.ParseIntWithoutDigits | src/app/result/page.tsx:213 | input holding no digit parses to NaN, so `parseInt(...) \|\| 0` is 0 |
| Strings.ParseInt | apps/web/src/app/review/page.tsx:125 | no contract of its own; `Strings.ParseIntOfNatToString` and `Strings.ParseIntWithoutDigits` state what it reads |
| Strings.ParseIntOrZero | src/app/result/page.tsx:213 | no contract of its own; the same two lemmas state `parseInt(...) \|\| 0` |
| Json.Member | apps/web/src/components/MindStreamApp.tsx:112-121 | a property read throws exactly on `null`, finds exactly an own key of an object, and is undefined otherwise |
| TaskService.RowReadsBack | src/lib/taskService.ts:41-98 | an inserted row belongs to the user and reads back, through the `getUserTasks` conversion, as the saved task |
| TaskService.RowOf | src/lib/taskService.ts:43-52 | no contract of its own; `TaskService.RowReadsBack` states it |
| TaskService.TaskOf | src/lib/taskService.ts:90-98 | no contract of its own; `TaskService.RowReadsBack` states it |
| TaskService.FirstRejected | src/lib/taskService.ts:41-59 | the index of the first rejected insert: every insert before it was accepted |
| TaskService.FirstRejectedIs | src/lib/taskService.ts:41-59 | the end of an accepted run that stops at a rejection, or at the end, is the first rejection |
| TaskService.SavedCopiesInputs | src/lib/taskService.ts:21-38 | each of the first n saved tasks copies its input's title, category and time, is not completed, carries the clock's stamp, and keeps the subtask titles, none completed |
| TaskService.BuiltCopiesInput | src/lib/taskService.ts:23-38 | each built task copies its input in that way |
| TaskService.SavedPrefix | src/lib/taskService.ts:21-62 | the tasks saved by a shorter run are a prefix of those saved by a longer one |
| TaskService.Materialised | src/lib/taskService.ts:23-38 | no contract of its own; `TaskService.BuiltCopiesInput` states it |
| TaskService.Saved | src/lib/taskService.ts:21-62 | no contract of its own; `TaskService.SavedCopiesInputs` and `TaskService.SavedPrefix` state it |
| TaskService.Built | src/lib/taskService.ts:23-38 | no contract of its own; `TaskService.BuiltCopiesInput` states it |
| TaskService.SaveError | src/lib/taskService.ts:56-58 | no contract of its own; `TaskService.TaskTable.SaveTasks` states where it is used |
| TaskService.BuildDbUpdates | src/lib/taskService.ts:126-131 | the payload holds exactly the defined fields, under their column names |
| TaskService.WrittenIsPatched | src/lib/taskService.ts:126-137 | writing that payload sets exactly the defined fields and keeps every other column |
| TaskService.Patched | src/lib/taskService.ts:126-137 | no contract of its own; `TaskService.WrittenIsPatched` and `TaskService.UpdatedRows` state it |
| TaskService.Written | src/lib/taskService.ts:133-137 | no contract of its own; `TaskService.WrittenIsPatched` states it |
| TaskService.UpdatedRows | src/lib/taskService.ts:133-137 | the rows with that id and user are patched; all others stay; the row count is kept |
| TaskService.DeleteRemovesOnlyMatching | src/lib/taskService.ts:157-161 | deletion removes exactly the rows of that id and user; kept and removed rows together are the old table |
| TaskService.RemainingRows | src/lib/taskService.ts:157-161 | no contract of its own; `TaskService.DeleteRemovesOnlyMatching` states it |
| TaskService.TaskTable.SaveTasks | src/lib/taskService.ts:17-69 | rows are appended for the tasks before the first rejected insert; success exactly when none is rejected, answering all saved tasks; otherwise the prefixed error message |
| TaskService.TaskTable.InsertUntilRejected | src/lib/taskService.ts:21-62 | the loop stops at the first rejection, having appended one row per task built before it |
| TaskService.TaskTable.Insert | src/lib/taskService.ts:41-59 | the row is appended exactly when the database reports no error |
| TaskService.TaskTable.UpdateTask | src/lib/taskService.ts:114-147 | without an error the table becomes `UpdatedRows`; with one it is unchanged and the prefixed message is returned |
| TaskService.TaskTable.DeleteTask | src/lib/taskService.ts:155-171 | without an error the matching rows are removed; with one the table is unchanged and the prefixed message is returned |
| TaskService.UserTasks | src/lib/taskService.ts:76-105 | an error becomes the prefixed failure; null data gives no tasks; otherwise one converted task per row, in order |
| TaskService.QueryHoldsTheUsersRows | src/lib/taskService.ts:78-82 | a correct answer to the query holds exactly the user's rows, as many as the table holds for that user |
| TaskService.UserTasksNewestFirst | src/lib/taskService.ts:78-98 | the tasks from a correct query answer are ordered newest `created_at` first |
| FocusPage.FindTask | src/app/focus/page.tsx:37 | undefined exactly when no task has the id; otherwise a listed task with that id |
| FocusPage.FindTaskFirst | src/app/focus/page.tsx:37 | `find` answers the first task carrying the id |
| FocusPage.NextIncomplete | src/app/focus/page.tsx:127-129 | the first incomplete subtask at or after the index; none exactly when all from there are complete |
| FocusPage.InitialCursor | src/app/focus/page.tsx:42-43 | the cursor starts on the first incomplete subtask, or on 0 when all are complete |
| FocusPage.NonNegativeTime | src/app/focus/page.tsx:162-166 | for non-negative seconds the fields are the numerals of the quotient and remainder by 60 |
| FocusPage.FormatTimeReadsBack | src/app/focus/page.tsx:162-166 | below 100 minutes the display is `mm:ss`, and its fields read back as the seconds |
| FocusPage.FormatTime | src/app/focus/page.tsx:162-166 | no contract of its own; `FocusPage.FormatTimeReadsBack` states its output |
| FocusPage.FocusSession.constructor | src/app/focus/page.tsx:23-32 | no task, no time, stopped, unpaused, cursor 0 |
| FocusPage.FocusSession.Load | src/app/focus/page.tsx:35-50 | a known id loads the task with minutes as seconds and the initial cursor; an unknown or empty id leaves for the dashboard; an id with no tasks yet waits |
| FocusPage.FocusSession.Tick | src/app/focus/page.tsx:53-77 | counts down only while running unpaused with time left; the last second stops the timer at 0 |
| FocusPage.FocusSession.ToggleTimer | src/app/focus/page.tsx:82-89 | a stopped timer starts unpaused; a running one flips its pause |
| FocusPage.FocusSession.FinishEarly | src/app/focus/page.tsx:147-150 | the timer stops with no time left |
| FocusPage.FocusSession.CompleteCurrentSubtask | src/app/focus/page.tsx:94-142 | nothing without a task or a user; otherwise the cursor's subtask is marked and the update written; on success the page leaves when all are done, or moves to the next incomplete subtask, or leaves; on failure the mark stays but flag and cursor do not move |
| FocusPage.Marked | src/app/focus/page.tsx:98-101 | only the cursor's subtask becomes completed, when it exists |
| FocusPage.MarkedCompletesOnlyTheCursor | src/app/focus/page.tsx:98-104 | the task counts as complete exactly when every other subtask already was |
| DashboardPage.ToggleSubtasks | src/app/dashboard/page.tsx:74-76 | completion flips exactly on the subtasks with the id; ids, titles and length are kept |
| DashboardPage.ToggleTwiceRestores | src/app/dashboard/page.tsx:74-76 | toggling the same subtask twice gives back the original subtasks |
| DashboardPage.SubtaskToggleUpdate | src/app/dashboard/page.tsx:74-96 | the update sends the toggled subtasks, with completed exactly when all of them are |
| DashboardPage.HandleSubtaskToggle | src/app/dashboard/page.tsx:72-104 | succeeds exactly with a user and no database error, and then writes that update; otherwise nothing is written |
| DashboardPage.ActiveAndCompletedPartition | src/app/dashboard/page.tsx:107-109 | the two lists split the tasks by `completed`, every task once; each filter distributes over concatenation, so both lists keep the order of `tasks` |
| DashboardPage.ActiveTasks | src/app/dashboard/page.tsx:107 | no contract of its own; `DashboardPage.ActiveAndCompletedPartition` states it |
| DashboardPage.CompletedTasks | src/app/dashboard/page.tsx:109 | no contract of its own; `DashboardPage.ActiveAndCompletedPartition` states it |
| DashboardPage.CompletedCount | src/app/dashboard/page.tsx:131 | the count of completed subtasks is at most their number, and equals it exactly when all are complete |
| DashboardPage.Progress | src/app/dashboard/page.tsx:116-120 | progress is 0 with no subtasks and lies within 0..100; it is 100 exactly when there are subtasks and all are complete |
| DashboardPage.Dashboard.constructor | src/app/dashboard/page.tsx:48 | no card starts expanded |
| DashboardPage.Dashboard.ToggleTaskExpand | src/app/dashboard/page.tsx:54-64 | the expanded set has the id's membership flipped |
| DashboardPage.ToggledFlipsOnlyId | src/app/dashboard/page.tsx:54-64 | a toggle flips the id only, and a second toggle undoes it |
| DashboardPage.Toggled | src/app/dashboard/page.tsx:54-64 | no contract of its own; `DashboardPage.ToggledFlipsOnlyId` states it |
| ReviewPage.MergeSetsPresentKeys | apps/web/src/app/review/page.tsx:25 | for each of the seven keys, a present key sets the field and an absent one keeps the task's value; merging again changes nothing, and an empty patch changes nothing |
| ReviewPage.Merge | apps/web/src/app/review/page.tsx:25 | no contract of its own; `ReviewPage.MergeSetsPresentKeys` states it |
| ReviewPage.UpdateTask | apps/web/src/app/review/page.tsx:23-27 | tasks with the id are merged with the updates; the others stay; the length is kept |
| ReviewPage.UpdateSubtask | apps/web/src/app/review/page.tsx:29-43 | inside the tasks with the id, the subtasks with the id take the title; nothing else changes |
| ReviewPage.AddSubtask | apps/web/src/app/review/page.tsx:45-60 | each task with the id gains one blank, incomplete subtask `st-<now>` at the end; the others stay |
| ReviewPage.RemoveSubtask | apps/web/src/app/review/page.tsx:62-74 | inside the tasks with the id, the subtasks with the id go; the others stay |
| ReviewPage.RemoveSubtaskKeepsOthers | apps/web/src/app/review/page.tsx:68 | what remains is exactly the subtasks of another id |
| ReviewPage.AddThenRemoveSubtask | apps/web/src/app/review/page.tsx:45-74 | removing the subtask just added gives the list back when no earlier subtask had its id |
| ReviewPage.RemoveTaskDropsOnlyThatId | apps/web/src/app/review/page.tsx:76-78 | exactly the tasks with the id go; the order is kept; with no such task the list is unchanged |
| ReviewPage.RemoveTask | apps/web/src/app/review/page.tsx:76-78 | no contract of its own; `ReviewPage.RemoveTaskDropsOnlyThatId` states it |
| ReviewPage.AcceptAllDisabled | apps/web/src/app/review/page.tsx:204-207 | the accept-all button is disabled exactly when the list is empty; `ReviewPage.RemovalDisablesAcceptAll` connects it to removal |
| ReviewPage.RemovalDisablesAcceptAll | apps/web/src/app/review/page.tsx:76-78 | after a removal, accepting all is disabled exactly when every task had the removed id |
| ReviewPage.EstimatedTimeInputDefaults | apps/web/src/app/review/page.tsx:123-127 | input with no digit gives 0, and a written numeral reads back as its number |
| ReviewPage.EstimatedTimeInput | apps/web/src/app/review/page.tsx:125 | no contract of its own; `ReviewPage.EstimatedTimeInputDefaults` states it |
| ResultPage.ResultPage.constructor | src/app/result/page.tsx:33-34 | the editing list starts as the given objects, not editing |
| ResultPage.ResultPage.UpdateTaskTitle | src/app/result/page.tsx:39-43 | only task i's title changes, in the editing list and, through the shared object, in the given tasks |
| ResultPage.ResultPage.UpdateTaskCategory | src/app/result/page.tsx:57-61 | only task i's category changes |
| ResultPage.ResultPage.UpdateEstimatedTime | src/app/result/page.tsx:66-70 | only task i's estimated time changes |
| ResultPage.ResultPage.EstimatedTimeChanged | src/app/result/page.tsx:213 | the field sets `parseInt(value) \|\| 0`, so text without a digit sets 0 |
| ResultPage.ResultPage.UpdateSubtaskTitle | src/app/result/page.tsx:48-52 | only subtask j of task i changes its title |
| ResultPage.ResultPage.StartEdit | src/app/result/page.tsx:136 | editing starts, and the list is unchanged |
| ResultPage.ResultPage.HandleSaveEdit | src/app/result/page.tsx:75-77 | editing ends with the edits in place |
| ResultPage.ResultPage.HandleCancelEdit | src/app/result/page.tsx:82-85 | editing ends, and the shown tasks are unchanged: earlier edits live in the shared objects |
| ResultPage.ResultPage.HandleConfirm | src/app/result/page.tsx:90-92 | nothing while editing; otherwise the current tasks, which equal the given ones |
| ResultPage.CancelKeepsTitleEdit | src/app/result/page.tsx:39-85 | a title edit followed by cancel is still shown and still confirmed |
| MindStreamApp.DraftSubtasks | apps/web/src/components/MindStreamApp.tsx:117-121 | one draft subtask per item (empty id, the item's title, not completed); a null item throws |
| MindStreamApp.DraftOf | apps/web/src/components/MindStreamApp.tsx:112-124 | a null task throws on `title`; a missing `subtasks` array throws on `.map`; otherwise the fields are copied with an empty id, not completed and the clock reading |
| MindStreamApp.DraftTasks | apps/web/src/components/MindStreamApp.tsx:112-124 | succeeds exactly when every item converts, keeping count and order |
| MindStreamApp.DraftTasksFirstFault | apps/web/src/components/MindStreamApp.tsx:112-124 | a failed conversion reports the first item's fault |
| MindStreamApp.ParseInput | apps/web/src/components/MindStreamApp.tsx:109-124 | a parse failure is a SyntaxError; a null payload or one without a `tasks` array is a TypeError; success is the drafts of the array |
| MindStreamApp.ConvertedTasksFollowPayload | apps/web/src/components/MindStreamApp.tsx:112-124 | one draft per payload task, in order, with the payload's fields and one incomplete subtask per payload subtask |
| MindStreamApp.MissingArraysFail | apps/web/src/components/MindStreamApp.tsx:109-124 | a payload without `tasks`, or with a task lacking `subtasks`, fails |
| MindStreamApp.Typed | apps/web/src/components/MindStreamApp.tsx:112 | a draft is a `Task` exactly when its fields have the declared JSON types, with those values |
| MindStreamApp.TypedSubtasks | apps/web/src/components/MindStreamApp.tsx:117-121 | draft subtasks are subtasks exactly when every title is a string |
| MindStreamApp.WellTypedPayloadGivesTasks | apps/web/src/components/MindStreamApp.tsx:109-124 | when every payload task has the declared shape, the conversion succeeds and every draft is a `Task` with the payload's title, category, time and subtask titles, an empty id, not completed and the clock's stamp |
| MindStreamApp.Reloaded | apps/web/src/components/MindStreamApp.tsx:80-87 | a failed reload keeps the current list; a successful one takes the query's tasks |
| MindStreamApp.App.constructor | apps/web/src/components/MindStreamApp.tsx:25-37 | starts on the dashboard, stage transcribing, with everything empty |
| MindStreamApp.App.HandleInputComplete | apps/web/src/components/MindStreamApp.tsx:94-134 | success shows the drafts on the result screen; a throw stays loading in the error stage with the error's message |
| MindStreamApp.App.LoadUserTasks | apps/web/src/components/MindStreamApp.tsx:80-87 | the list becomes `Reloaded`; nothing else changes |
| MindStreamApp.App.HandleConfirmTasks | apps/web/src/components/MindStreamApp.tsx:139-160 | nothing without a user; rows are saved up to the first rejection; all saved: reload and dashboard; otherwise the error stage with the save's message |
| MindStreamApp.App.HandleBackToInput | apps/web/src/components/MindStreamApp.tsx:165-169 | the input screen, with the drafts and the error cleared |
| MindStreamApp.App.HandleRetry | apps/web/src/components/MindStreamApp.tsx:189-192 | the input screen, with the error cleared and the drafts kept |
| MindStreamApp.App.HandleNavigate | apps/web/src/components/MindStreamApp.tsx:174-176 | only the current screen changes |
| LoadingPage.StageProgress | apps/web/src/components/LoadingPage.tsx:32-70 | progress is 33, 66, 100 and 0, never above 100; only the error stage reads `error`, defaulting its message |
| LoadingPage.StageConfigOf | apps/web/src/components/LoadingPage.tsx:32-70 | no contract of its own; `LoadingPage.StageProgress` states its values |
| LoadingPage.DotsOf | apps/web/src/components/LoadingPage.tsx:173-182 | the first dot is lit in every working stage, the second from structuring on, the third while saving |
| LoadingPage.DotsNested | apps/web/src/components/LoadingPage.tsx:173-182 | the lit dots are a prefix: one, two and three for the three working stages, none on error |
| LoadingPage.Render | apps/web/src/components/LoadingPage.tsx:72-186 | the error view exactly in the error stage, with the retry button exactly when `onRetry` is given; otherwise the stage's progress view, with the transcript exactly when truthy and structuring |
| LoadingPage.TranscriptOnlyWhileStructuring | apps/web/src/components/LoadingPage.tsx:165-182 | when the transcript shows, progress is 66 with two dots lit |
| SettingsPage.ProviderModelsOfType | src/app/settings/page.tsx:173-185 | an unknown provider lists no models; a known one lists exactly its models of the type |
| SettingsPage.ModelListsFollowTheChoice | src/app/settings/page.tsx:173-185 | the lists are empty before loading; afterwards they hold exactly the chosen providers' speech and text models |
| SettingsPage.SpeechModels | src/app/settings/page.tsx:173-179 | no contract of its own; `SettingsPage.ModelListsFollowTheChoice` states it |
| SettingsPage.TextModels | src/app/settings/page.tsx:181-185 | no contract of its own; `SettingsPage.ModelListsFollowTheChoice` states it |
| SettingsPage.FreeBadgeExactly | src/app/settings/page.tsx:244-248 | the free badge shows exactly for Google, the browser recogniser and Ollama |
| SettingsPage.FreeBadge | src/app/settings/page.tsx:244-248 | no contract of its own; `SettingsPage.FreeBadgeExactly` states it |
| SettingsPage.KeyCardsListed | src/app/settings/page.tsx:392 | a key card for exactly the providers that need a key, in catalogue order |
| SettingsPage.KeyCards | src/app/settings/page.tsx:392 | no contract of its own; `SettingsPage.KeyCardsListed` states it |
| SettingsPage.ToggledVisibility | src/app/settings/page.tsx:166-171 | the provider's visibility flips and every other entry stays |
| SettingsPage.ToggleTwiceRestoresVisibility | src/app/settings/page.tsx:166-171 | a second toggle shows or hides every field as before |
| SettingsPage.PendingKeys | src/app/settings/page.tsx:102-106 | a temporary key is written exactly when it is non-empty and differs from the stored one |
| SettingsPage.SaveApiKeys | src/app/settings/page.tsx:102-106 | the writes are a prefix of the pending ones, all of them when none throws; every call but a failing last one succeeded |
| SettingsPage.SettingsView.constructor | src/app/settings/page.tsx:51-55 | no settings, loading, not saving, no visibility entries, no temporary keys |
| SettingsPage.SettingsView.LoadSettings | src/app/settings/page.tsx:62-77 | with a user, the fetched settings and their keys become the state; loading ends either way |
| SettingsPage.SettingsView.ToggleApiKeyVisibility | src/app/settings/page.tsx:166-171 | the visibility map becomes `ToggledVisibility`; nothing else changes |
| SettingsPage.SettingsView.EditApiKey | src/app/settings/page.tsx:424-429 | the temporary key of the provider becomes the typed value |
| SettingsPage.SettingsView.SaveKeysAndReload | src/app/settings/page.tsx:101-110 | only changed, non-empty temporary keys are written; after all succeed the page reloads; otherwise the state stays |
| SettingsPage.SettingsView.HandleSaveSettings | src/app/settings/page.tsx:79-117 | nothing without settings; silent without a user; a failed preference write alerts failure; otherwise success exactly when every pending key was saved; saving always ends |
| SettingsPage.SettingsView.HandleRemoveApiKey | src/app/settings/page.tsx:119-141 | after confirmation, the key is removed; on success the page reloads and the temporary keys become the earlier ones without the provider; a failure alerts and keeps the page |
| SettingsPage.RemovalKeepsOtherTempKeys | src/app/settings/page.tsx:128-134 | after removal the provider has no temporary key, and other providers' unsaved keys survive |

## Left out

- The HTTP bodies of the text and speech service classes are not modelled. The services'
  answers are the parameters `generate` and `post`. Each can fail: a failed `post` is the
  message of a rejected `fetch`, and a reply body that does not parse is an error of its own. `TextService.StructurizeText` passes the
  user's text to `generate` instead of building the prompt around it.
- Supabase, the database client, is not modelled. The `tasks` table is a sequence of rows and
  `user_settings` a map keyed by user. Each request's outcome arrives as a parameter.
- `JSON.parse` is the parameter `parse`. JSON numbers are integers only: the payload's
  numbers are whole minutes.
- `generateId` and `new Date()` are the oracles `mint` and `clock`, indexed by call. The
  `updated_at` stamp of a settings update is the parameter `now`, its value as an ISO string. The
  random id format of `generateId` is not modelled.
- Floating point is not modelled. `costPer1k` is stored in hundredths of a cent. The
  dashboard progress is an exact rational. The focus-page progress percentage and the
  loading ring's rotation are left out.
- Timers are one `Tick` step of the focus session. `setInterval` scheduling is not
  modelled.
- `FocusPage.FocusSession.CompleteCurrentSubtask`: the reload of the app's task list before
  leaving for the dashboard is not modelled; only where the page goes is.
- `FocusPage.FocusSession.CompleteCurrentSubtask`: the task came from `tasks.find` on the
  app's shared list. Marking the subtask therefore also changes that subtask object in the
  app's list, even when the database write fails afterwards. The model holds the session's
  task as a value, so this sharing is not captured: only the session's own copy is shown
  marked.
- The `AudioRecorder` class is not modelled, because it only drives the browser's
  MediaRecorder; only `formatRecordingTime` is. The input page is not modelled.
- `apps/web/src/lib/openai.ts`, authentication, the layout, the app context and the user
  store are not part of this model.
- JSX rendering, styling and routing are not modelled. Navigation is a returned value or a
  screen field.
- The settings page's `handleLogout` is left out: it only signs out and routes.
- The settings select handlers are left out: they only copy the chosen value into the state.
- The `default` branch of `getStageConfig` is left out, because the stage type admits no
  fifth value.
- `Object.entries(tempApiKeys)` order is the parameter `entries`, constrained to list each
  key once.
- The browser speech recogniser's callbacks are the parameter `recognise`. Its start and
  event wiring are not modelled.
- The ordering of the `getUserTasks` query is a predicate on the answer, `AnswersQuery`, not
  a sort performed by the model.
- `TaskService.TaskTable.SaveTasks`: the inputs are typed tasks. A malformed element of the
  untyped `any[]` input, which would throw on `.map`, is not modelled.
- `UserSettings.StoredRow`: the `id` and `created_at` columns are not modelled. The database
  fills them and no caller reads them. `updated_at` is modelled, because every update writes it.
- `TextService.CreateAIService` takes the settings and the key lookup as parameters instead
  of calling `getUserSettings` and `getApiKey`. Both never fail, so no error path is lost.
- `ReviewPage.AddSubtask`: one clock reading serves every task carrying the id. The source
  reads `Date.now()` once per such task.
- `MindStreamApp.App.HandleInputComplete`: the engine's `TypeError` message text is the
  parameter `message`.
- `DashboardPage.HandleSubtaskToggle`: it does not model the parent reloading the list
  after a successful write.
