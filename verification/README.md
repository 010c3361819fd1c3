# Kanban task board: LLM and task-list core in Dafny

This project models the logic layer of an AI-assisted kanban board. The
board is a React application; its user interface is not modelled. The
modelled layer does three things:

- it turns a provider configuration and free text into task records, by
  calling one of four LLM vendors and recovering tasks from the reply;
- it keeps the in-memory task list in step with a remote store;
- it persists the configuration and the system prompt in a key–value store.

The model keeps one Dafny module per source file:

| module | source file | form |
|---|---|---|
| `LlmService` | src/services/llmService.ts | class `LLMService` with a mutable `config`; pure request builders and reply mappers per vendor |
| `TaskGeneration` | src/services/taskGenerationService.ts | class `TaskGenerationService` with a mutable `systemPrompt`; pure prompt choice, brace extraction and recovery ladder |
| `UseTasks` | src/hooks/useTasks.ts | class `TaskList` whose `tasks` and `loading` fields are reassigned by each operation |
| `KanbanBoard` | src/components/KanbanBoard.tsx | pure column partition and drag rule; methods for the create loops |
| `ArchiveDialog` | src/components/ArchiveDialog.tsx | pure restore rule |
| `AddTaskForm` | src/components/AddTaskForm.tsx | class `AddTaskForm` whose three fields are edited, validated and reset |
| `ConfigService` | src/services/configService.ts | class `ConfigService` with a `map` field standing for the browser store |

Support modules:

- `LlmTypes` and `KanbanTypes` hold the records of src/types/llm.ts and
  src/types/kanban.ts.
- `JsStrings` models JavaScript's `trim` and `slice(0, n)`.
- `Seqs` holds an order-preserving `Filter` and first and last index search.
- `Wrappers` holds `Option` and `Result`.

The model abstracts external effects in these ways:

- **Network.** A `Network` value gives each vendor endpoint's answer to a
  request: either a status that is not ok, or a reply body.
- **Remote store.** The task store's answers are parameters of the
  task-list methods. Each is a function of exactly what the method sends,
  so the types show what is sent.
- **JSON.** `JSON.parse` and `JSON.stringify` are uninterpreted parameters.
  `parse` is a partial function (`string -> Option<J>`): `None` stands for
  the exception the source catches.
- **Missing reply fields.** When an adapter dereferences a reply field that
  is absent (an empty `choices` array, a missing `usage`), JavaScript
  raises a TypeError. The model returns the `MalformedReply` error instead.
- **Statuses.** A task's status is kept as the raw string the store or a
  drop target supplied. The source casts these with `as Task['status']`
  without checking them. `Status` and `StatusOf` give the four valid ids.

## Model

| member | source | states |
|---|---|---|
| LlmService.LLMService.constructor | src/services/llmService.ts:4 | a new client has no configuration |
| LlmService.LLMService.GetConfig | src/services/llmService.ts:10-12 | the configuration currently held, or none |
| LlmService.LLMService.SetConfig | src/services/llmService.ts:6-8 | afterwards `GetConfig` returns exactly the configuration set |
| LlmService.LLMService.CallLLM | src/services/llmService.ts:14-31 | no configuration: fails with `ConfigNotSet` and sends nothing; a tag other than openai, claude, gemini, custom: fails with `UnsupportedProvider` and sends nothing; otherwise sends the request of the adapter the tag names, with the configured key, and returns that adapter's mapped reply |
| LlmService.DmxApiRejected | src/services/llmService.ts:28-29 | the tag 'DMXAPI', which the configuration type admits, is rejected with the message "Unsupported LLM provider: DMXAPI" |
| LlmService.SentTemperature | src/services/llmService.ts:43 | an absent or zero temperature is sent as 0.7, any other value unchanged; the value sent is never 0 |
| LlmService.SentMaxTokens | src/services/llmService.ts:44 | an absent or zero output cap is sent as 1000, any other value unchanged; the value sent is never 0 |
| LlmService.RequestFor | src/services/llmService.ts:19-27 | the request built carries the configuration's provider tag and api key |
| LlmService.ChatRequestOf | src/services/llmService.ts:40-45 | the OpenAI-style body (also used by custom, lines 142-147): the messages unchanged, the model, and a temperature and cap that are each the configured value or its default, never 0 |
| LlmService.ClaudeRequestOf | src/services/llmService.ts:71-76 | the model, a cap that is the configured value or 1000 and never 0, exactly the non-system messages, and a `system` field absent exactly when there is no system message |
| LlmService.FirstSystemContent | src/services/llmService.ts:75 | none exactly when no message is a system message; otherwise the content of the first system message |
| LlmService.GeminiContents | src/services/llmService.ts:103-108 | one entry per non-system message, with its text; the role is `model` exactly for assistant messages |
| LlmService.GeminiSystemInstruction | src/services/llmService.ts:109-111 | present exactly when there is a system message with non-empty content, and then that content |
| LlmService.GeminiRequestOf | src/services/llmService.ts:102-116 | contents for every non-system message, an instruction that is never empty, and a temperature and output cap that are each the configured value or its default, never 0 |
| LlmService.RequestDefaults | src/services/llmService.ts:40-45 | OpenAI and custom send the messages unchanged, the model, the custom base URL, and the defaulted temperature and cap; Claude and Gemini send exactly the body their builders make |
| LlmService.Conversation | src/services/llmService.ts:74 | keeps exactly the non-system messages, each as often as in the input |
| LlmService.ConversationConcat | src/services/llmService.ts:74 | removing system messages keeps the order of the rest |
| LlmService.FirstSystemIndex | src/services/llmService.ts:75 | finds the first system message, or none exactly when there is no system message |
| LlmService.ClaudeSeparatesSystem | src/services/llmService.ts:71-76 | Claude's messages hold no system message and lose no other one; `system` is the first system message's content, absent exactly when there is none |
| LlmService.GeminiReshapes | src/services/llmService.ts:102-111 | Gemini's contents are the non-system messages in order, `assistant` as `model` and `user` as `user`, with their text; the system instruction is present exactly when the first system message has non-empty content |
| LlmService.PromptPairRequests | src/services/llmService.ts:71-76 | for a `[system, user]` pair Claude sends the user message alone with the prompt as `system`; Gemini sends one user entry and the prompt as instruction unless it is empty |
| LlmService.OpenAIResponse | src/services/llmService.ts:48-60 | a status that is not ok raises "OpenAI API error" with the status text; otherwise the first choice's content and the three usage counts copied |
| LlmService.ClaudeResponse | src/services/llmService.ts:79-91 | a status that is not ok raises "Claude API error"; otherwise the first block's text, with total tokens the sum of input and output tokens |
| LlmService.GeminiResponse | src/services/llmService.ts:120-132 | a status that is not ok raises "Gemini API error"; otherwise the first candidate's first part, each usage count the vendor's or 0 when missing |
| LlmService.CustomResponse | src/services/llmService.ts:150-158 | a status that is not ok raises "Custom API error"; an ok reply never fails; the content is the first choice's content, else the top-level content, else ''; usage is passed through or all zeros |
| LlmService.Respond | src/services/llmService.ts:48-50 | an adapter raises only an API error or a malformed-reply error |
| LlmService.NotOkIsApiError | src/services/llmService.ts:48-50 | whichever adapter is used, a status that is not ok makes the call fail with an API error |
| TaskGeneration.TaskGenerationService.constructor | src/services/taskGenerationService.ts:26 | the prompt starts as the built-in template |
| TaskGeneration.TaskGenerationService.SetSystemPrompt | src/services/taskGenerationService.ts:28-30 | afterwards `GetSystemPrompt` returns exactly the prompt set |
| TaskGeneration.TaskGenerationService.GetSystemPrompt | src/services/taskGenerationService.ts:32-34 | the prompt currently held |
| TaskGeneration.TaskGenerationService.GetDefaultSystemPrompt | src/services/taskGenerationService.ts:36-38 | always the built-in template, whatever prompt was set |
| TaskGeneration.EffectivePrompt | src/services/taskGenerationService.ts:41 | a non-empty override wins; an absent or empty one falls back to the stored prompt |
| TaskGeneration.PromptMessages | src/services/taskGenerationService.ts:43-46 | exactly two messages, the system prompt then the user input; its first system content is the prompt and its conversation is the input alone |
| TaskGeneration.BraceSpan | src/services/taskGenerationService.ts:54 | there is a match exactly when some `{` precedes some `}`; the match runs from the first `{` to the last `}` |
| TaskGeneration.FallbackTitle | src/services/taskGenerationService.ts:67 | the input itself up to 50 characters; beyond that its first 50 characters followed by '...' |
| TaskGeneration.FallbackDraft | src/services/taskGenerationService.ts:65-72 | a `todo` task whose description is the whole input and whose title is the fallback title, at most 53 characters |
| TaskGeneration.Recover | src/services/taskGenerationService.ts:48-73 | a reply that parses is returned as parsed; else a parsable brace span is returned as parsed; otherwise exactly one `todo` task with the fallback title and the input as description |
| TaskGeneration.EmbeddedObjectRecovered | src/services/taskGenerationService.ts:54-58 | an object in prose whose prefix has no `{` and whose suffix has no `}` is extracted and parsed |
| TaskGeneration.ProseFallsBack | src/services/taskGenerationService.ts:64-72 | text with no `{` before a `}` that does not parse yields exactly one `todo` task describing the input |
| TaskGeneration.TaskGenerationService.GenerateTasks | src/services/taskGenerationService.ts:40-74 | sends exactly `[system prompt, user input]`; a failing call is rethrown unchanged; a successful one always yields the recovery ladder's result |
| TaskGeneration.TaskGenerationService.TestPrompt | src/services/taskGenerationService.ts:76-88 | sends the same pair and returns the reply's content and usage without parsing; a failing call is rethrown |
| TaskGeneration.GenerateRaisesOnlyOnCallFailure | src/services/taskGenerationService.ts:43-51 | generation fails exactly when the provider call fails, and without configuration fails with the configuration error |
| UseTasks.ToTask | src/hooks/useTasks.ts:20-27 | id, title, status and timestamps copied; a null description becomes '' |
| UseTasks.StatusPatch | src/components/KanbanBoard.tsx:48 | a drag sends only the status |
| UseTasks.ReplaceById | src/hooks/useTasks.ts:108-110 | same length; each task with the id becomes the updated one, every other task stays at its place |
| UseTasks.ReplaceByIdContents | src/hooks/useTasks.ts:108-110 | after a replace, every task is the updated one or an untouched task with another id |
| UseTasks.ReplaceAbsentId | src/hooks/useTasks.ts:108-110 | replacing an id no task has changes nothing |
| UseTasks.ReplaceIdempotent | src/hooks/useTasks.ts:108-110 | replacing twice with the same row is replacing once |
| UseTasks.RemoveById | src/hooks/useTasks.ts:133 | keeps exactly the tasks with another id, each as often as before |
| UseTasks.RemoveKeepsOrder | src/hooks/useTasks.ts:133 | removal keeps the relative order of the remaining tasks |
| UseTasks.RemoveAbsentId | src/hooks/useTasks.ts:133 | removing an id no task has changes nothing |
| UseTasks.RemoveIdempotent | src/hooks/useTasks.ts:133 | removing twice is removing once |
| UseTasks.TaskList.constructor | src/hooks/useTasks.ts:7-8 | the list starts empty and loading |
| UseTasks.TaskList.FetchTasks | src/hooks/useTasks.ts:11-40 | on success the list is the mapped rows in store order; on error it is kept; loading ends either way |
| UseTasks.TaskList.CreateTask | src/hooks/useTasks.ts:42-82 | sends only title, description and status; on success appends exactly the stored task at the end; on error the list is kept and the error returned |
| UseTasks.TaskList.UpdateTask | src/hooks/useTasks.ts:84-122 | on success replaces by id with the returned row; on error the list is kept and the error returned |
| UseTasks.TaskList.DeleteTask | src/hooks/useTasks.ts:124-148 | on success removes by id; on error the list is kept and the error returned |
| KanbanBoard.InitialColumnsOrder | src/components/KanbanBoard.tsx:13-18 | four columns in the order todo, in-progress, done, archived, each with its status id as id |
| KanbanBoard.WithStatus | src/components/KanbanBoard.tsx:29 | a column holds exactly the tasks with its status, each as often as in the list |
| KanbanBoard.ColumnsOf | src/components/KanbanBoard.tsx:26-31 | the four initial columns, in order, each filled with the tasks of its status |
| KanbanBoard.ColumnsKeepOrder | src/components/KanbanBoard.tsx:29 | each column keeps the list's order |
| KanbanBoard.ExactlyOneColumn | src/components/KanbanBoard.tsx:26-31 | a task with a valid status is in exactly the column of that status; any other task is in none |
| KanbanBoard.ColumnsPartition | src/components/KanbanBoard.tsx:26-31 | when all statuses are valid the columns together hold the list as a multiset, and their sizes sum to its length |
| KanbanBoard.FindColumn | src/components/KanbanBoard.tsx:39 | the first column with the id, none exactly when no column has it |
| KanbanBoard.OnDragEnd | src/components/KanbanBoard.tsx:33-50 | an update exactly when there is a destination, the source column exists, the source index holds a task and the columns differ; it gives that task the destination column's id |
| KanbanBoard.DragChangesStatus | src/components/KanbanBoard.tsx:39-49 | on the board's columns a drag moves a task of the list sitting in the source column and always changes its status; an unknown source moves nothing |
| KanbanBoard.HandleDragEnd | src/components/KanbanBoard.tsx:33-50 | no update leaves the list unchanged; an update goes through the task list's update, whose error is passed on; the loading flag is untouched |
| KanbanBoard.ResultOfUpdate | src/hooks/useTasks.ts:97-112 | the task list returns the mapped row, or the store's error |
| KanbanBoard.VoiceTitle | src/components/KanbanBoard.tsx:82 | text of at most 50 characters unchanged; longer text becomes 53 characters ending in '...' |
| KanbanBoard.VoiceTitleIsFallbackTitle | src/components/KanbanBoard.tsx:82 | spoken tasks are titled exactly as fallback tasks are |
| KanbanBoard.VoiceDraft | src/components/KanbanBoard.tsx:78-85 | white-space-only text makes no task; other text makes a `todo` task with the truncated title and the whole text |
| KanbanBoard.HandleVoiceInput | src/components/KanbanBoard.tsx:77-99 | creates the spoken task; a store error leaves the list unchanged and is not passed on; the loading flag is untouched |
| KanbanBoard.HandleTasksGenerated | src/components/KanbanBoard.tsx:61-75 | creates the drafts in order and stops at the first store error; the list grows by exactly the created tasks, in order; the generator closes exactly when all were created; the loading flag is untouched |
| ArchiveDialog.OnDragEnd | src/components/ArchiveDialog.tsx:33-44 | an update exactly when there is a destination, the source is `archived` and the destination is not; it moves the dragged card to the destination id |
| ArchiveDialog.RestoreToTarget | src/components/ArchiveDialog.tsx:21-25 | a card dropped from the archive onto a target column gets that column's status |
| ArchiveDialog.TargetsAreNotArchived | src/components/ArchiveDialog.tsx:21-25 | the targets are exactly the three statuses other than `archived` |
| ArchiveDialog.OnlyArchivedRestores | src/components/ArchiveDialog.tsx:39 | a drag from any other column never updates |
| AddTaskForm.AddTaskForm.constructor | src/components/AddTaskForm.tsx:16-20 | the form starts with empty title and description and status `todo` |
| AddTaskForm.AddTaskForm.SetTitle | src/components/AddTaskForm.tsx:68 | changes the title only |
| AddTaskForm.AddTaskForm.SetDescription | src/components/AddTaskForm.tsx:82 | changes the description only |
| AddTaskForm.AddTaskForm.SetStatus | src/components/AddTaskForm.tsx:95 | changes the status only |
| AddTaskForm.AddTaskForm.HandleSubmit | src/components/AddTaskForm.tsx:22-34 | a blank title submits nothing and leaves the form unchanged; otherwise submits the trimmed title and description and the status, the title being non-empty with no outer white space, and resets the form |
| JsStrings.Trim | src/components/AddTaskForm.tsx:25 | nothing is left exactly when the text is all white space |
| JsStrings.TrimIsSlice | src/components/AddTaskForm.tsx:28-29 | the trimmed text is the slice of the input between leading and trailing white space |
| JsStrings.TrimEnds | src/components/AddTaskForm.tsx:28-29 | the trimmed text neither starts nor ends with white space |
| JsStrings.Prefix | src/services/taskGenerationService.ts:67 | the first n characters, or the whole text when shorter |
| KanbanTypes.StatusOf | src/types/kanban.ts:5 | the status with a given id, none exactly when no status has it |
| KanbanTypes.StatusOfId | src/types/kanban.ts:5 | reading back a status's id gives the status |
| ConfigService.StoredConfig | src/services/configService.ts:20-32 | nothing when the key is missing, empty or unparsable; otherwise exactly what parsing the stored text gives |
| ConfigService.StoredPrompt | src/services/configService.ts:49-60 | present exactly when the key holds a non-empty text, which it then is |
| ConfigService.SavedConfigLoads | src/services/configService.ts:37-41 | with a codec that reads back what it writes, a saved configuration loads again |
| ConfigService.SavedPromptLoads | src/services/configService.ts:65-69 | a saved non-empty prompt loads again; an empty one loads as absent |
| ConfigService.EntriesIndependent | src/services/configService.ts:6-7 | saving one entry leaves the other as read |
| ConfigService.ClearedLoadsNothing | src/services/configService.ts:92-95 | after a clear neither entry loads |
| ConfigService.ConfigService.LoadLLMConfig | src/services/configService.ts:20-32 | returns the stored configuration and hands it to the client; nothing stored leaves the client as it was |
| ConfigService.ConfigService.SaveLLMConfig | src/services/configService.ts:37-44 | stores the configuration's text under `llm_config` and hands it to the client; the next load returns it when the codec round-trips; the prompt entry is untouched |
| ConfigService.ConfigService.LoadSystemPrompt | src/services/configService.ts:49-60 | a stored non-empty prompt is handed to the generator and returned; otherwise nothing changes |
| ConfigService.ConfigService.SaveSystemPrompt | src/services/configService.ts:65-72 | stores the prompt under `system_prompt` and hands it to the generator; the next load returns it unless it is empty |
| ConfigService.ConfigService.InitializeConfigs | src/services/configService.ts:12-15 | both stored entries reach the client and the generator |
| ConfigService.ConfigService.IsLLMConfigured | src/services/configService.ts:77-80 | true exactly when a configuration is set with non-empty api key, model and provider |
| ConfigService.ConfigService.GetLLMConfig | src/services/configService.ts:85-87 | the client's current configuration |
| ConfigService.ConfigService.ClearConfigs | src/services/configService.ts:92-95 | removes exactly the two keys and leaves the client's configuration and the generator's prompt in place |
| ConfigService.ConfiguredPassesConfigCheck | src/services/configService.ts:77-80 | a configured client never fails with the configuration error |
| ConfigService.ConfiguredDmxApiRejected | src/services/configService.ts:77-80 | a 'DMXAPI' configuration counts as configured yet every call is rejected |

## Left out

- HTTP: URLs, headers, request serialisation and `response.json()` are not modelled. Replies are the abstract `Network` answers; a body that is not JSON is not modelled.
- Asynchrony: each operation is one atomic step. Interleavings of concurrent calls are not modelled, nor are React state updates that land after a later render.
- Toasts and console logging are left out, because they change nothing the model observes.
- Timestamps: `createdAt` and `updatedAt` are kept as the store's strings, not as `Date` values.
- String length: a Dafny `char` is one Unicode scalar value. JavaScript's `length` and `slice` count UTF-16 code units, so titles that contain characters outside the Basic Multilingual Plane are cut at a different point.
- LlmService.CustomResponse: the vendor's `usage` object is passed through as if it already had the client's field names. The source passes any object unchanged, for example one with snake_case fields.
- LlmService.ClaudeResponse: a reply whose `usage` lacks `input_tokens` or `output_tokens` is not modelled. The source would then report `undefined` counts and a `NaN` total (src/services/llmService.ts:87-89); the model's counts are always integers.
- LlmService.GeminiResponse: a first part without a `text` field is not modelled. The source would then return `undefined` content (src/services/llmService.ts:126); the model's parts are always strings.
- LlmService.OpenAIResponse: a `null` content or usage count is not modelled; every field present is a string or number.
- TaskGeneration.Recover: a parsed value that is not an object (such as `null` for the text "null") is returned like any other value, and nothing validates its tasks. The fallback task's `dueDate: undefined` field is not modelled.
- ConfigService.ConfigService.LoadLLMConfig: a stored text that parses to something other than a configuration is not distinguished from a configuration. `Codec.parse` yields a configuration or nothing.
- ConfigService.ConfigService.SaveSystemPrompt: an exception from `setItem` is not modelled. In the source (src/services/configService.ts:66-71) it is caught and logged, and it also skips handing the prompt to the generator; in the model the write always succeeds and the prompt is always handed over.
- ConfigService.ConfigService.SaveLLMConfig: an exception from `setItem`, such as a full store, is not modelled. The store write always succeeds.
- The store in useTasks: the Supabase client, its SQL ordering and row identities are not modelled. A row is whatever answer the method receives.
- KanbanBoard.HandleDragEnd: the source does not catch a failed update, and the rejected promise is left unhandled. The model returns the error to the caller.
- `handleAddTask` (src/components/KanbanBoard.tsx:52-55) has no member of its own: it calls `createTask` and, once that succeeds, hides the add form (line 54). The form's visibility is user-interface state and is not modelled.
- `handleDeleteTask` (src/components/KanbanBoard.tsx:57-59) is a one-line forwarder to `deleteTask` and has no member of its own. The same holds for the `refetch` alias of `fetchTasks` in src/hooks/useTasks.ts:160.
- Out of scope for this model:
  - src/components/VoiceInput.tsx (speech recognition and audio-level arithmetic);
  - src/components/AITaskGenerator.tsx and src/components/AITaskInput.tsx (UI callers of the generator);
  - src/components/TaskDetailDialog.tsx (due-date display based on the wall clock);
  - src/components/LLMDebugger.tsx (settings UI; its 'dmxapi' tag and its 'llm-config' key);
  - src/components/Column.tsx, src/components/TaskCard.tsx and src/components/ArchiveDropZone.tsx (rendering);
  - src/types/speech.d.ts (browser typings).
