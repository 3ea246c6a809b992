# GornBot feedback core in Dafny

GornBot is a Telegram bot that helps teachers write feedback on student work.
A teacher sends `/start`. The bot checks the teacher's Telegram id against an
access roster kept in a Google Sheet. It then runs a four-step dialog:
DISCIPLINE (pick a discipline), TASK (pick one of its tasks), INPUT (type or
dictate the feedback) and OUTPUT (rate the generated text). The typed text,
the discipline and task names, the task description and the syllabus are
collected in a `for_gemini` dictionary and sent to Gemini, which returns the
finished feedback. Two deployment scripts check the YAML configuration, and a
utility prunes the log directory.

This project models that core and proves properties about it. It has one
Dafny module per source file, plus three shared modules:

| module | file | models |
|---|---|---|
| `Values` | values.dfy | Python runtime values: None, bool, int, str, list and insertion-ordered dict. It also models `d[k]`, `d.get(k, default)`, `d[k] = v`, `d.update(...)`, truthiness and the exceptions they raise. |
| `Strings` | strings.dfy | `str.startswith`, `in`, `split(", ")`, `", ".join` and `strip`. |
| `Effects` | effects.dfy | What a handler does outside the dialog context: logged actions, replies, downloads, Gemini requests and stored ratings. These are returned as a sequence instead of being performed. |
| `States` | states.dfy | `Feedback` and `Admin` of src/states.py |
| `Enums` | enums.dfy | `Action`, `Database`, `RedisKeys` and `DialogDataKeys` of src/enums.py |
| `CustomTypes` | custom_types.dfy | `Teacher` and `UserData` of src/custom_types.py |
| `GoogleQueries` | google_queries.dfy | the roster parse of `get_teachers` |
| `FeedbackDialog` | feedback.dfy | the dialog of src/dialogs/feedback.py |
| `StartHandlers` | start.dfy | src/handlers/start.py |
| `FeedbackHandlers` | feedback_handlers.dfy | src/utils/feedback_handlers.py |
| `GenAI` | genai.dfy | the request construction of src/utils/genai.py |
| `AppConfig` | config.dfy | the schema and `load_config` of src/config.py |
| `ConfigCheck` | config_check.dfy | config_check.py |
| `HealthCheck` | health_check.dfy | health_check.py |
| `Logs` | utils.dfy | `remove_logs` of src/utils/utils.py |

The model follows the source's own form.

- `FeedbackDialog.DialogManager` is a class. Its fields are the current step, `dialog_data`, `start_data`, the start and show modes, and the middleware data. The click handlers and the framework's `start` are methods that update these fields in place.
- The window getters, the configuration validators, the roster parse and the `UserData` validators are functions.
- Loops in the source become loops in the model:
  - the required-field loop of `validate_bot_config`;
  - the URL loop of `validate_redis_config`;
  - the validator loop of config_check.py's `main`;
  - the deletion loop of `remove_logs`.

  Each loop method is proved equal to a specification function, and the properties are proved about that function.
- The `io.BytesIO` buffer of the voice download is a class.
- The log directory is a class whose listing the deletions shrink.
- `on_dialog_start` stores the `for_gemini` dict of `start_data` itself in `dialog_data`, so the two names refer to one object. The class records this with a `shared` flag. While the flag is set, the in-place `update` of `dialog_get_data` and the `feedback_text` assignment of `process_feedback_text` also change `start_data[for_gemini]` (`FeedbackDialog.WithForGemini`).

External values are parameters of the model:

- the sheet rows;
- the aggregated start data;
- the transcript and the generated feedback text;
- the upload handle;
- the parsed YAML document;
- the `ENVIRONMENT` variable;
- the outcome of the Redis ping;
- the directory listing.

The Python exceptions of the modelled code are `Err` values of a `Result`: `KeyError`, `TypeError`, `AttributeError`, `IndexError`, `UnboundLocalError` and pydantic's `ValidationError`. Exceptions raised inside the parts that are left out, such as the Telegram and Gemini clients, are not modelled.

Where the design description of the system and the code disagree, the model follows the code:

- A discipline id missing from the catalog still advances the dialog to TASK, with the name "unknown". The description calls this a no-op.
- "Regenerate" does nothing. The description says it resamples the temperature.
- "New feedback" keeps `dialog_data`. The description says it clears the working set.
- The restart after an unknown intent or state starts the dialog with no start data and does not re-run the aggregation. `on_dialog_start` then subscripts `None`, so the restart raises a `TypeError` (`StartHandlers.HandleErrorAndRestart`).
- The aggregated catalog keeps `for_gemini` at its top level, and `get_disciplines` offers every top-level key, so `for_gemini` is offered as a discipline named "None". After the first render the shared dict holds the string "unknown" under `task_name`. Choosing that button therefore makes the task window's getter call `.get` on a string, which raises `AttributeError` (`FeedbackDialog.ForGeminiButtonBreaksTaskWindow`).
- The two deployment scripts read a missing `redis.host` differently. config_check.py warns that the host is None, while health_check.py connects to "redis" (`HealthCheck.HostReadings`).
- The feedback request has no temperature and no tags. Its contents are the teacher's text, the discipline name, the task name, the task description and the syllabus, in that order.

## Model

| member | source | states |
|---|---|---|
| Values.Index | src/dialogs/feedback.py:31 | `d[k]` succeeds exactly on a dict holding `k` and returns the value stored under `k`. It raises `KeyError(k)` on a dict without `k` and `TypeError` on a non-dict. |
| Values.Get | src/dialogs/feedback.py:42-43 | `v.get(k, default)` fails exactly when `v` is not a dict, and then with `AttributeError` |
| Values.GetBy | src/dialogs/feedback.py:54 | `.get` with a key taken from data fails exactly on a non-dict receiver (`AttributeError`) or an unhashable list or dict key (`TypeError`), and otherwise returns the value stored under the key or the default |
| Values.Put | src/dialogs/feedback.py:119-120 | after `d[k] = v`, `k` maps to `v` and every other key keeps its value |
| Values.PutKeys | src/dialogs/feedback.py:119-120 | item assignment keeps the key order of an existing key and appends a new key at the end |
| Values.SetItem | src/utils/feedback_handlers.py:55 | item assignment succeeds exactly on a dict, and otherwise raises `TypeError` |
| Values.UpdateSetsKey | src/dialogs/feedback.py:61-66 | after `d.update(pairs)`, a key written by a pair that no later pair overwrites maps to that pair's value |
| Values.UpdateKeepsOtherKeys | src/dialogs/feedback.py:61-66 | `d.update(pairs)` leaves every key the pairs do not name unchanged |
| Strings.Split | src/google_queries.py:16 | `str.split` always returns at least one piece |
| Strings.JoinSplit | src/google_queries.py:16 | joining the pieces of `split(sep)` with `sep` gives back the original string |
| Strings.SplitJoin | src/google_queries.py:16 | splitting at ", " the join of pieces that contain no ", " gives back those pieces |
| Strings.SplitPiecesAvoidSeparator | src/google_queries.py:16 | no piece of a split contains the separator |
| Strings.SplitWithoutSeparator | src/google_queries.py:16 | a string without the separator splits into itself alone |
| Strings.SplitFirstIsPrefix | src/google_queries.py:16 | the first piece of a split is a prefix of the string |
| Strings.StripLeftSpec | src/custom_types.py:59 | left stripping removes a whitespace-only prefix and leaves a suffix that is empty or starts with a non-space |
| Strings.StripRightSpec | src/custom_types.py:59 | right stripping removes a whitespace-only suffix and leaves a prefix that is empty or ends with a non-space |
| Strings.StripSpec | src/custom_types.py:59 | `strip()` returns a contiguous slice surrounded only by whitespace, which is empty or neither starts nor ends with whitespace |
| Strings.StripTrimmed | src/custom_types.py:59 | `strip()` leaves a string without surrounding whitespace unchanged |
| Strings.StripIdempotent | src/custom_types.py:59 | stripping twice is stripping once |
| States.IndexOf | src/states.py:9-14 | every step has a position in the declared order DISCIPLINE, TASK, INPUT, OUTPUT |
| States.Next | src/states.py:9-14 | `next()` is defined exactly for the first three steps and moves one position forward |
| States.Previous | src/states.py:9-14 | Back is defined exactly for the last three steps and moves one position back |
| States.FeedbackStates | src/states.py:11-14 | `Feedback` has exactly four pairwise distinct states, in the order DISCIPLINE, TASK, INPUT, OUTPUT |
| States.NextPreviousInverse | src/states.py:11-14 | moving forward from `s` reaches `t` exactly when moving back from `t` reaches `s` |
| States.StateNamesDistinct | src/states.py:4-14 | the qualified state names are pairwise distinct, and none of them is `Admin`'s single state `MAIN` |
| Enums.ActionValuesAreLowerCaseNames | src/enums.py:4-22 | every `Action` value is its member name in lower case |
| Enums.DatabaseValuesAreLowerCaseNames | src/enums.py:25-29 | every `Database` value is its member name in lower case |
| Enums.RedisKeyValuesAreLowerCaseNames | src/enums.py:32-36 | every `RedisKeys` value is its member name in lower case |
| Enums.DialogDataKeyValuesAreLowerCaseNames | src/enums.py:39-52 | every `DialogDataKeys` value is its member name in lower case |
| Enums.ValuesAreDistinct | src/enums.py:4-52 | within each enumeration, no two members share a value |
| Enums.DatabaseValues | src/enums.py:25-29 | the `Database` values are exactly "fsm", "users" and "temp", the Redis fields of the configuration schema |
| CustomTypes.SetLanguageCode | src/custom_types.py:79-86 | the language code is "" exactly when the supplied one is missing or empty, and otherwise it is the supplied one |
| CustomTypes.MakeUserData | src/custom_types.py:35-86 | building `UserData` fails with a validation error exactly when the id is not positive, and otherwise stores the normalised name, username and language code |
| CustomTypes.FullNameFromNames | src/custom_types.py:54-59 | when a first or last name is filled, the full name is the filled names joined by a space and stripped, so it has no surrounding whitespace |
| CustomTypes.FullNameKeepsSupplied | src/custom_types.py:60-61 | when neither name is filled, the supplied full name is kept |
| CustomTypes.StripLeadingSpace | src/custom_types.py:55-59 | a leading space, as an empty first name contributes, does not change the stripped full name |
| CustomTypes.StripTrailingSpace | src/custom_types.py:55-59 | a trailing space, as an empty last name contributes, does not change the stripped full name |
| CustomTypes.UsernameNormalised | src/custom_types.py:66-76 | None stays None. Any other username starts with "https://t.me/": it is kept when it already does and prefixed otherwise. |
| CustomTypes.UsernameIdempotent | src/custom_types.py:73-76 | normalising a normalised username changes nothing |
| CustomTypes.EqualityIgnoresIdentity | src/custom_types.py:88-95 | two users with the same full name, username, premium flag and language code are equal, whatever their ids and first and last names |
| CustomTypes.HashDisagreesWithEquality | src/custom_types.py:97-99 | two equal users with different ids have different hash keys |
| CustomTypes.ConsistentHashAgreesWithEquality | src/custom_types.py:92-99 | hashing the compared fields alone gives equal users equal hash keys |
| GoogleQueries.ReadWindow | src/google_queries.py:13 | the range A1:C100 returns at most the first 100 rows, each cut to its first three cells |
| GoogleQueries.ParsePositiveInt | src/custom_types.py:10 | an id cell is accepted exactly when it is a non-empty decimal numeral with a positive value, and that value is the id |
| GoogleQueries.DecimalRoundTrip | src/custom_types.py:10 | the decimal spelling of a number reads back as that number |
| GoogleQueries.ParsesDecimalIds | src/custom_types.py:10 | every positive id written in decimal is accepted |
| GoogleQueries.ParseTeacher | src/google_queries.py:16 | a row needs three cells (`IndexError` otherwise) and a positive id (`ValidationError` otherwise). The teacher is the name cell, the id and the third cell split at ", ". |
| GoogleQueries.ParseRows | src/google_queries.py:15-17 | the rows parse exactly when every row does, one teacher per row in order, and a failure is the error of some row |
| GoogleQueries.ParseTeachers | src/google_queries.py:17 | a response without "values" raises `TypeError` |
| GoogleQueries.ParseSucceedsIff | src/google_queries.py:15-17 | the roster parses exactly when it is present and every row after the header has three cells and a positive id |
| GoogleQueries.TeachersFromRows | src/google_queries.py:15-17 | The header row is skipped, so there are rows − 1 teachers, in row order. Each has the row's name and id, disciplines that are never empty, and disciplines that join back to the third cell. |
| GoogleQueries.SingleDiscipline | src/google_queries.py:16 | a discipline cell without ", " gives a single discipline |
| GoogleQueries.RosterBound | src/google_queries.py:13 | the fixed range bounds the roster to at most 99 teachers |
| FeedbackDialog.ItemButtons | src/dialogs/feedback.py:90 | there is one `(name, key)` pair per entry, in order, with the name defaulting to "None". The whole list raises `AttributeError` when some entry is not a dict. |
| FeedbackDialog.Disciplines | src/dialogs/feedback.py:85-92 | a `start_data` that is not a dict raises `AttributeError` |
| FeedbackDialog.DisciplinesListEveryKey | src/dialogs/feedback.py:90 | the discipline buttons carry exactly the top-level keys of `start_data`, in order, including `for_gemini` |
| FeedbackDialog.TaskKeys | src/dialogs/feedback.py:104 | a key is kept exactly when it contains "task" |
| FeedbackDialog.TaskEntries | src/dialogs/feedback.py:104 | the `if "task" in k` filter keeps exactly the entries whose key contains "task", and their keys are `TaskKeys` of the entry's keys |
| FeedbackDialog.TaskItems | src/dialogs/feedback.py:103-105 | the task buttons are the buttons of exactly the entries whose key contains "task", and they are built exactly when every such entry is a dict |
| FeedbackDialog.TaskButtonsNamed | src/dialogs/feedback.py:103-105 | there is one task button per key containing "task", in order, named by its entry's "name" or "None" |
| FeedbackDialog.NonDictTaskRaises | src/dialogs/feedback.py:104 | a task key holding something other than a dict makes the task list raise `AttributeError` |
| FeedbackDialog.Tasks | src/dialogs/feedback.py:95-107 | The task list is built exactly when `start_data` is a dict, the stored discipline id ("unknown" if none) is hashable, the entry it selects is a dict, and that entry's task entries are dicts. An unhashable id raises `TypeError`; every other failure is `AttributeError`. |
| FeedbackDialog.TasksAreTaskKeys | src/dialogs/feedback.py:100-105 | every offered task key contains "task", so "name" and "syllabus" are never offered |
| FeedbackDialog.TasksOfStoredDiscipline | src/dialogs/feedback.py:100-105 | the tasks offered are the task buttons of the catalog entry the stored discipline id selects, with its keys containing "task" in order |
| FeedbackDialog.CatalogFieldsAreNotTasks | src/dialogs/feedback.py:104 | "name" and "syllabus" do not contain "task" |
| FeedbackDialog.UnknownDisciplineHasNoTasks | src/dialogs/feedback.py:100-105 | a stored discipline id that the catalog lacks offers no tasks |
| FeedbackDialog.OutputText | src/dialogs/feedback.py:148 | the OUTPUT window shows the stored `for_gemini[feedback_text]`, the teacher's text, defaulting to "unknown", and "unknown" when no `for_gemini` is stored. The getter fails exactly when the stored `for_gemini` is not a dict. |
| FeedbackDialog.Lookups | src/dialogs/feedback.py:42-58 | The lookups succeed exactly when `start_data` is a dict, the stored discipline and task ids are hashable, and the selected discipline and task entries are dicts. An unhashable id raises `TypeError`, a non-dict entry `AttributeError`. The two names are read from `dialog_data`, defaulting to "unknown". |
| FeedbackDialog.LookupsDefaultToUnknown | src/dialogs/feedback.py:42-58 | when the stored discipline is missing from the catalog, the description and the syllabus are "unknown". Names missing from `dialog_data` are "unknown" too. |
| FeedbackDialog.KnownTaskLookups | src/dialogs/feedback.py:42-58 | for a stored discipline and task that the catalog holds, the lookups are the stored names, that task's description and that discipline's syllabus, each defaulting to "unknown" |
| FeedbackDialog.MissingTaskLookups | src/dialogs/feedback.py:51-58 | a stored task that the discipline lacks has the description "unknown", while the syllabus is still the discipline's |
| FeedbackDialog.Merge | src/dialogs/feedback.py:61-66 | The merge succeeds exactly when `for_gemini` is stored as a dict. It raises `KeyError` when `for_gemini` is missing and `AttributeError` when it is not a dict. |
| FeedbackDialog.MergeSetsFourFields | src/dialogs/feedback.py:61-66 | the merge writes the four looked-up values into `for_gemini`. Every other key of `for_gemini` and of `dialog_data` keeps its value, and the key order of `dialog_data` does not change. |
| FeedbackDialog.Slice50 | src/dialogs/feedback.py:76-77 | `[:50]` works only on strings and lists and gives a prefix of at most 50 elements, the whole value when it is short enough |
| FeedbackDialog.Preview | src/dialogs/feedback.py:76-77 | the shown text is the first 50 characters (or fewer) followed by "...", and the "..." is added to short texts too |
| FeedbackDialog.GetDataPersistsMerge | src/dialogs/feedback.py:61-77 | the merge into `for_gemini` persists even when the header cannot be built afterwards |
| FeedbackDialog.DisciplineName | src/dialogs/feedback.py:117 | the name lookup fails exactly when `start_data` or the entry is not a dict, and gives "unknown" for an id the catalog lacks |
| FeedbackDialog.UnknownDisciplineIsNamedUnknown | src/dialogs/feedback.py:117-123 | an id missing from the catalog is named "unknown", so the selection still advances |
| FeedbackDialog.KnownDisciplineIsNamed | src/dialogs/feedback.py:117 | a catalog entry with a name gives that name |
| FeedbackDialog.TaskName | src/dialogs/feedback.py:133-136 | the task-name lookup raises `AttributeError` on a `start_data` that is not a dict |
| FeedbackDialog.KnownTaskIsNamed | src/dialogs/feedback.py:133-136 | the task name is read from the task entry under the stored discipline id, defaulting to "unknown" |
| FeedbackDialog.UnknownTaskIsNamedUnknown | src/dialogs/feedback.py:133-136 | a task id the stored discipline lacks is named "unknown" |
| FeedbackDialog.WithForGemini | src/dialogs/feedback.py:31 | a write through the shared `for_gemini` dict leaves `start_data[for_gemini]` holding the new dict and every other catalog entry as it was |
| FeedbackDialog.DialogManager.OnDialogStart | src/dialogs/feedback.py:27-31 | `dialog_data[for_gemini]` becomes the object `start_data[for_gemini]`, so from then on the two are shared. The subscript's `KeyError` or `TypeError` leaves `dialog_data` and the sharing as they were. Nothing else changes. |
| FeedbackDialog.DialogManager.Start | src/handlers/start.py:130-135 | the framework's `start` sets the step, the start data and the modes, and leaves `dialog_data` holding only the `for_gemini` it shares with `start_data` (or empty, with nothing shared, when the subscript raised) |
| FeedbackDialog.DialogManager.DialogGetData | src/dialogs/feedback.py:34-82 | the getter's new `dialog_data` and result are those of the pure `GetData`. When `for_gemini` is shared, `start_data[for_gemini]` becomes the merged dict and the rest of `start_data` is unchanged; otherwise `start_data` is unchanged. The step does not change. |
| FeedbackDialog.DialogManager.DisciplineSelection | src/dialogs/feedback.py:110-123 | On success it stores the id and the looked-up name and the step becomes TASK. On failure it raises `AttributeError` and nothing changes. |
| FeedbackDialog.DialogManager.TaskSelection | src/dialogs/feedback.py:126-141 | it stores the task id and the name looked up under the stored discipline and the step becomes INPUT. On a failed lookup nothing changes. |
| FeedbackDialog.DialogManager.Back | src/dialogs/feedback.py:215-224 | Back moves one step back and changes nothing else |
| FeedbackDialog.DialogManager.NewFeedback | src/dialogs/feedback.py:151-153 | OUTPUT switches to INPUT with `dialog_data` untouched |
| FeedbackDialog.DialogManager.HandleFeedback | src/dialogs/feedback.py:156-165 | the rating stored is "like" exactly when the callback data is "like_id", and the step becomes INPUT |
| FeedbackDialog.DialogManager.RedoFeedback | src/dialogs/feedback.py:168-170 | regenerate has no effect and changes no state (it has no `modifies` clause) |
| FeedbackDialog.BackOnlyInTaskAndInput | src/dialogs/feedback.py:189-250 | a Back button is in a window exactly when the window is TASK or INPUT |
| FeedbackDialog.ModelledMovesAreDefined | src/dialogs/feedback.py:189-250 | every modelled widget of every window leads to an existing step |
| FeedbackDialog.NoModelledMoveToOutput | src/dialogs/feedback.py:220-238 | no modelled widget of the INPUT window leads to OUTPUT |
| FeedbackDialog.ForGeminiButtonBreaksTaskWindow | src/dialogs/feedback.py:34-107 | for a catalog holding a discipline and `for_gemini`, after the start and the first render the button `("None", "for_gemini")` is offered, and once it is chosen the task window's getter raises `AttributeError` |
| StartHandlers.GetCurrentState | src/handlers/start.py:31-38 | every dialog starts at the first step, DISCIPLINE, which has no previous step |
| StartHandlers.TeacherIds | src/handlers/start.py:48 | the id set holds exactly the ids of the roster's teachers |
| StartHandlers.StartDialog | src/handlers/start.py:122-135 | the dialog starts at the given step with the given start data and modes (by default no data, `RESET_STACK` and `DELETE_AND_SEND`), and `dialog_data` then holds only the copied `for_gemini`, or nothing when the copy raised |
| StartHandlers.ProcessStart | src/handlers/start.py:41-85 | An unreadable roster fails before anything happens. Otherwise START is logged first. A user outside the roster gets the not-teacher notice with the owner's contact and no dialog starts. A teacher's dialog starts at DISCIPLINE with `RESET_STACK` and the aggregated data. A failed aggregation ends in `UnboundLocalError`. |
| StartHandlers.AuthorisedIffRosterRow | src/handlers/start.py:46-52 | a user is authorised exactly when some row after the header carries the user's id |
| StartHandlers.HandleErrorAndRestart | src/handlers/start.py:100-119 | the users and temp storages are written first. With a translator hub, RESTART is logged and the dialog restarts at DISCIPLINE with no start data, which raises `TypeError`. Without a hub it raises `AttributeError` after the storages are written. |
| StartHandlers.OnUnknownIntent | src/handlers/start.py:88-91 | the restart of `handle_error_and_restart` |
| StartHandlers.OnUnknownState | src/handlers/start.py:94-97 | the same restart as for an unknown intent |
| FeedbackHandlers.HandleVoice | src/utils/feedback_handlers.py:20-43 | A non-voice gets the error prompt. A voice over 10 MiB gets the warning with no download. A voice without a size raises `TypeError`. An accepted voice is downloaded, transcribed once and the transcript is sent to the same user. It writes no dialog state. |
| FeedbackHandlers.SizeLimitInclusive | src/utils/feedback_handlers.py:18-29 | a voice is accepted exactly when its size is at most 10485760 bytes, so a voice of exactly 10 MiB is accepted and one byte more is refused |
| FeedbackHandlers.StoreFeedbackText | src/utils/feedback_handlers.py:55 | The text is stored at `for_gemini[feedback_text]` and every other key keeps its value and order. It raises `KeyError` when `for_gemini` is missing and `TypeError` when it is not a dict. |
| FeedbackHandlers.ProcessFeedbackText | src/utils/feedback_handlers.py:47-59 | The text is stored before the request is built, and the request is built from the updated `for_gemini`. When `for_gemini` is shared, `start_data[for_gemini]` sees the stored text too; otherwise `start_data` is unchanged. The reply goes to the same user and the step is unchanged. |
| FeedbackHandlers.RequestCarriesStoredText | src/utils/feedback_handlers.py:55-57 | the first content of the request is the text just typed |
| FeedbackHandlers.StoreSetsText | src/utils/feedback_handlers.py:55 | storing the text is a nested item assignment |
| FeedbackHandlers.SetTextKeepsFields | src/utils/feedback_handlers.py:55 | storing the text keeps the prompt and the four merged fields |
| FeedbackHandlers.StoredTextRequest | src/utils/feedback_handlers.py:55-57 | with the prompt and the four fields stored, the request is the prompt plus the text and the four fields, in order |
| FeedbackHandlers.MergedThenTypedRequest | src/utils/feedback_handlers.py:55-57 | after the getter's merge and the typed text, the request carries the typed text and the four looked-up fields |
| FeedbackHandlers.CatalogReachesRequest | src/utils/feedback_handlers.py:55-57 | for a stored discipline and task that the catalog holds, the request after a render and a typed text carries the text, the two stored names, that task's description and that discipline's syllabus |
| GenAI.FirstMissing | src/utils/genai.py:45-52 | the result is a key the data lacks whose earlier keys are all present, so it is the first missing key. It is None exactly when every key is present. |
| GenAI.IndexAll | src/utils/genai.py:45-52 | the subscripts succeed exactly when every key is present. They return the stored values in order, or raise `KeyError` for the first missing key. |
| GenAI.BuildFeedbackRequest | src/utils/genai.py:36-55 | The system instruction is `data[prompt]`. The contents are exactly the feedback text, the discipline name, the task name, the task description and the syllabus. A missing key is `KeyError` for the first missing key in evaluation order, and no request is built. |
| GenAI.FeedbackRequestContents | src/utils/genai.py:42-53 | with all six fields present the request is the prompt plus the five contents in that order, and nothing else such as a temperature |
| GenAI.MissingPromptReportedFirst | src/utils/genai.py:45 | a missing prompt is reported before any missing content |
| GenAI.BytesBuffer.Write | src/utils/feedback_handlers.py:31-32 | a download writes the bytes at the current position and moves the position past them |
| GenAI.BytesBuffer.Rewind | src/utils/genai.py:16 | `seek(0)` moves the position to the start and keeps the bytes |
| GenAI.BytesBuffer.Read | src/utils/genai.py:19-25 | the upload reads every byte from the current position to the end |
| GenAI.GenerateTranscript | src/utils/genai.py:12-32 | The buffer is rewound, so the whole recording is uploaded as "audio/ogg" "voice.ogg". The contents are the fixed prompt followed by the upload. |
| AppConfig.StrField | src/config.py:14 | a `str` field is accepted exactly when it is present and a string |
| AppConfig.Positive | src/config.py:13 | a `PositiveInt` is accepted exactly when it is an integer greater than zero |
| AppConfig.PositiveField | src/config.py:13 | a required `PositiveInt` field is accepted exactly when it is present and positive |
| AppConfig.PositiveList | src/config.py:37 | a `list[PositiveInt]` is accepted exactly when every element is positive, and it keeps the elements in order |
| AppConfig.SectionField | src/config.py:78-91 | a nested section is accepted exactly when it is present and a dict |
| AppConfig.IdsField | src/config.py:36-41 | an ids section fails only with a validation error |
| AppConfig.ParseBot | src/config.py:11-16 | a bot section is valid exactly when it has a positive id and string name, link and token, and it keeps those values |
| AppConfig.ParseMessageEffect | src/config.py:19-26 | the message-effect section is valid exactly when all six fields are strings |
| AppConfig.ParseOwner | src/config.py:29-33 | the owner section is valid exactly when it has a positive id and a string name and link |
| AppConfig.ParseRedis | src/config.py:44-49 | the Redis section is valid exactly when the host and the three storage URLs are strings, the URL fields being named by the `Database` values, and it keeps the URLs |
| AppConfig.ParseGoogle | src/config.py:52-62 | a non-positive tab length makes the Google section invalid |
| AppConfig.ParseLLM | src/config.py:65-70 | an LLM section is valid exactly when its four fields are strings, and it keeps the key and the model |
| AppConfig.StrSection | src/config.py:6-8 | a one-field section such as `System` (and `SystemPrompt`, src/config.py:73-75) is valid exactly when it is present, a dict, and its field is a string, and it keeps that string |
| AppConfig.Section | src/config.py:78-91 | a section field is valid exactly when it is a dict that its schema accepts |
| AppConfig.ParseBots | src/config.py:81-82 | the bot settings are valid exactly when both bot sections are, and they are those two sections |
| AppConfig.ParsePeople | src/config.py:84-86 | the owner, admins and superadmins sections must all be valid |
| AppConfig.ParseServices | src/config.py:87-90 | the Redis, Google, OpenAI and Gemini sections must all be valid |
| AppConfig.ParseSettings | src/config.py:80-91 | the system, message-effect and system-prompt sections must all be valid |
| AppConfig.ParseConfig | src/config.py:78-91 | a document is valid exactly when every section is, keys outside the schema are ignored, and the bots are the document's bot sections |
| AppConfig.SelectBot | src/config.py:102-112 | In `dev`, `bot` becomes the `bot_test` section and every other key keeps its value, with `KeyError("bot_test")` when that section is missing. In any other environment the document is kept as it is. A document that is not a dict raises `TypeError`. |
| AppConfig.LoadConfig | src/config.py:95-119 | The bot is selected and its name printed, which raises when it is missing, before validation. A validation error is re-raised, so no configuration is returned. |
| AppConfig.UnsetEnvironmentKeepsBot | src/config.py:102-112 | an unset ENVIRONMENT is "prod", which keeps the document as it is |
| AppConfig.DevRunsTestBot | src/config.py:105-107 | in `dev` a valid configuration's bot is its test bot |
| AppConfig.DevBotIsTestBot | src/config.py:107 | in `dev` the selected `bot` section equals the `bot_test` section |
| AppConfig.ParsedBotIdIsStored | src/config.py:13 | the validated bot id is the positive number stored under `bot.id` |
| AppConfig.NonPositiveIdRejected | src/config.py:13-31 | a non-positive bot, test-bot or owner id makes the whole document invalid |
| AppConfig.NonPositiveTabLengthRejected | src/config.py:56-60 | a non-positive tab length makes the whole document invalid |
| AppConfig.NonPositiveAdminRejected | src/config.py:36-41 | a non-positive admin or superadmin id makes the whole document invalid |
| ConfigCheck.BotVerdict | config_check.py:31-43 | the bot check runs exactly when the config and its `bot` entry (default `{}`) are dicts, and it logs no warning |
| ConfigCheck.BotValidIff | config_check.py:33-43 | the bot check passes exactly when `id`, `name` and `token` are all truthy |
| ConfigCheck.MissingBotSectionFails | config_check.py:33 | a missing `bot` section counts as all fields missing and fails |
| ConfigCheck.ValidateBotConfig | config_check.py:31-43 | the field loop with its early return yields the verdict of `BotVerdict` |
| ConfigCheck.In | config_check.py:59 | `sub in url` is a substring test on a string and raises `TypeError` on values that support no `in` |
| ConfigCheck.UrlWarnings | config_check.py:56-61 | the URL loop runs exactly when every URL can be searched (`TypeError` otherwise), and it gives a warning for each URL that mentions BotsRedis and no other warning |
| ConfigCheck.UrlWarningsInKeyOrder | config_check.py:56-61 | the URL warnings are at most one per key, in the order fsm, users, temp |
| ConfigCheck.RedisVerdict | config_check.py:45-64 | The Redis check runs exactly when the config and its `redis` section are dicts and every URL can be searched. It raises `AttributeError` on a non-dict config or section and `TypeError` on a URL without `in`. When it runs it passes, its first warning is about the host exactly when the host is not "redis", and the URL warnings follow. |
| ConfigCheck.RedisWarningsInOrder | config_check.py:49-61 | a passing Redis check warns about a host other than "redis" first, then about each URL mentioning BotsRedis in the order fsm, users, temp |
| ConfigCheck.ValidateRedisConfig | config_check.py:45-64 | the URL loop yields the verdict of `RedisVerdict` |
| ConfigCheck.OpenAIVerdict | config_check.py:66-82 | the OpenAI check passes exactly when `api_key` is truthy, and a falsy `model` only warns, and only after the key was found |
| ConfigCheck.SystemVerdict | config_check.py:84-95 | the system check always passes and warns exactly when `time_zone` is falsy |
| ConfigCheck.Validate | config_check.py:107-112 | each validator of the list computes its section's verdict |
| ConfigCheck.Verdicts | config_check.py:107-112 | there are four validators |
| ConfigCheck.Combine | config_check.py:114-117 | the run succeeds exactly when no validator raised, and it passes exactly when every validator passed |
| ConfigCheck.FirstErrorWins | config_check.py:115-117 | the first validator that raises ends the run with its exception |
| ConfigCheck.CombineFour | config_check.py:114-117 | with four verdicts, the run passes when all pass and logs their warnings in order |
| ConfigCheck.RunChecks | config_check.py:97-125 | the script's loop computes `MainOutcome`: exit 1 on a falsy config before any validator, otherwise every validator runs |
| ConfigCheck.NoShortCircuit | config_check.py:114-117 | all four validators run even after one failed, and their warnings are logged in order |
| ConfigCheck.PassesIffBotAndOpenAI | config_check.py:107-125 | the script exits with 0 exactly when the config is truthy, no validator raised, and the bot and OpenAI checks pass |
| ConfigCheck.FalsyConfigExits | config_check.py:102-104 | a missing or empty config exits with 1 before any validator runs |
| HealthCheck.CheckConfig | health_check.py:45-64 | the check passes exactly when `bot.token` and `openai.api_key` are both truthy. A missing section is empty, and a lookup that raises fails the check. |
| HealthCheck.RedisHost | health_check.py:36 | the host lookup succeeds exactly when the config and its `redis` section (default `{}`) are dicts; the pinged host is the section's `host` when present and "redis" otherwise |
| HealthCheck.HealthMain | health_check.py:66-84 | The exit status is 0 exactly when the config check passes, the host lookup succeeds and the ping succeeds, and 1 otherwise. Redis is pinged only after the config check passed. |
| HealthCheck.ConfigFailureSkipsRedis | health_check.py:76-81 | a failed config check exits with 1 before Redis is contacted |
| HealthCheck.DeploymentCheckImpliesHealthCheck | health_check.py:49-58 | every document that passes config_check.py passes `check_config` |
| HealthCheck.HealthCheckDoesNotImplyDeploymentCheck | health_check.py:49-58 | a document with only a bot token and an OpenAI key passes `check_config` but fails config_check.py |
| HealthCheck.HostReadings | health_check.py:36 | a missing `redis.host` is pinged as "redis" while config_check.py warns about a None host, and a present host other than "redis" is the one both scripts use |
| Logs.LexLeTotal | src/utils/utils.py:33 | Python's string order is total |
| Logs.LexLeTransitive | src/utils/utils.py:33 | Python's string order is transitive |
| Logs.LexLeAntisymmetric | src/utils/utils.py:33 | Python's string order is antisymmetric |
| Logs.Insert | src/utils/utils.py:33 | inserting into a sorted listing keeps it sorted and adds exactly that name |
| Logs.Sort | src/utils/utils.py:33 | `sorted` returns a sorted permutation of the listing |
| Logs.Without | src/utils/utils.py:37 | removing a name deletes every occurrence of it and nothing else |
| Logs.LogDirectory.Remove | src/utils/utils.py:37 | `os.remove` deletes exactly that name from the listing, and the names stay distinct |
| Logs.RemoveEach | src/utils/utils.py:36-37 | deleting the names one after another removes exactly those names from the directory |
| Logs.RemoveLogs | src/utils/utils.py:31-37 | With at most 5 files nothing is deleted. Otherwise every file but the last in sorted order is deleted, in sorted order, and only the last remains. |
| Logs.KeptIsMaximum | src/utils/utils.py:33-37 | the file kept is one of the directory's and the largest of its names |
| Logs.RemovedAreTheOthers | src/utils/utils.py:33-37 | only names from the listing are deleted, each at most once, and every one but the kept one is deleted |

## Left out

- Telegram transport and rendering are not modelled: aiogram's widgets, the `Format` and `Const` texts, the i18n strings, keyboards, `message.answer`, `send_message`, `print` and logging. Replies and sends are recorded as `Effect` values instead.
- The Google Sheets client and the Gemini client (client construction, upload and generation) are outside the model. Their results are parameters: the sheet rows, the upload handle, the transcript and the feedback text.
- The typing-indicator task and its cancellation in `process_start`, and the sleeps in `handle_voice`, are concurrency and timing and are not modelled.
- `check_redis`'s connection and ping are not modelled. Only the host it reads is modelled, and whether the ping succeeds is a parameter.
- YAML loading, `os.getenv`, `os.listdir`, `sys.exit` and the clock defaults of the pydantic records are outside the model. The loaded document, the variable, the listing and the exit status are parameters or results.
- pydantic's lax coercions beyond what the core needs are not modelled. An id from the sheet is accepted only as a plain decimal numeral, with no sign, whitespace or underscores. A YAML number is accepted only as an integer, with no bool or float coercion. `HttpUrl` is treated as a plain string.
- `handle_transcription` (the INPUT window's send button) is imported from src/utils/feedback_handlers.py, which does not define it, so its move is `NotModelled`.
- `get_data_for_input` is not modelled. It reads `DialogDataKeys.TRANSCRIPTION_FROM_AUDIO`, which src/enums.py does not define.
- `get_data_for_dialog`, `put_feedback` and `add_action` are not part of this model. The aggregated start data is a parameter of `ProcessStart`, and the stored rating and the logged action are effects.
- The framework's dialog stack is not modelled. `StartMode` and `ShowMode` are recorded on the context but have no further meaning. `Back` and `next` move along the step order of src/states.py.
- Middleware entries other than the two storages, the translator hub and the translator are not modelled. The hub's `get_translator_by_locale` is modelled only by its result.
- Logs.LogDirectory.Remove: requires the name to be present, so `os.remove`'s `FileNotFoundError` is not modelled. `remove_logs` only deletes names taken from the listing.
- Logs.RemoveEach: states the multiset of the remaining names, not their order in the listing. The listing order of `os.listdir` is arbitrary.
- AppConfig.IdsField: states only the error kind. Its positivity is stated by `NonPositiveAdminRejected`.
- AppConfig.ParseGoogle: states only which fields make it fail. The string fields are checked like every other `StrField`.
- ConfigCheck.Verdicts: states only the number of verdicts. Their order is given by `VerdictsInOrder`.
- The framework's storage of the dialog context is not part of this model. A storage that serialises the context between updates would end the sharing of `for_gemini` between `dialog_data` and `start_data`, but the model keeps the two shared for the life of the dialog, as the Python objects of one process are.
- The log messages of config_check.py and health_check.py are not modelled. Their warnings are kept as `Warning` values, but the text is not.

## Findings

| source | as written | input that shows it | evidently intended | confidence | as-written member | corrected member |
|---|---|---|---|---|---|---|
| src/custom_types.py:92-99 | `__eq__` compares only `compare_fields()`, but `__hash__` hashes `(id, compare_fields())` | two users with ids 1 and 2 and the same full name, username, premium flag and language code: they are equal but hash differently, so a set can hold both | the hash depends only on the fields that equality compares | not executed | CustomTypes.HashDisagreesWithEquality | CustomTypes.ConsistentHashAgreesWithEquality |
