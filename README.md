# Task board with suggested steps — a Dafny model

The program is a single-page Kanban board. Tasks live in three columns (to
do, in progress, done), carry a priority, a checklist of subtasks and up to
four short suggestions for getting started. A new task always lands in the
to-do column; its suggestions come from a remote chat-completion endpoint
when a credential is stored, and from six fixed keyword-chosen lists
otherwise or when the remote path fails in any way. Cards can be renamed,
given subtasks, have subtasks ticked and unticked, and be dragged from one
column to another. The task list is kept in the browser's storage.

The model is split along the program's own files:

- `Text.dfy` — the string built-ins the program relies on (`trim`,
  `toLowerCase`, `includes`, `split('\n')`) over ASCII, with their
  properties (trim is idempotent and yields a piece of its input,
  splitting then joining gives the text back).
- `AiService.dfy` — `src/services/aiService.ts`: the keyword fallback, the
  reply parser, the remote path as a `Result`, and the entry point that
  never fails.
- `TaskCard.dfy` — `src/components/TaskCard.tsx`: the `Task`/`SubTask`
  records, the checklist progress percentage, and the card's editing state
  as a class `Card` whose callbacks are returned as values.
- `UseTasks.dfy` — `src/hooks/useTasks.ts`: each list update as a pure
  function with its frame properties, and the store as a class `TaskStore`
  whose methods replace the list with those functions.
- `IndexPage.dfy` — `src/pages/Index.tsx`: the column filters and the
  drag-and-drop hand-over, as a class `Board` that owns the store.
- `AddTaskModal.dfy` — `src/components/AddTaskModal.tsx`: the new-task
  form as a class `AddTaskForm`.
- `Wrappers.dfy` — `Option` and `Result`.

Inputs the program reads from the environment are parameters: the stored
task text and a `parse` function standing for `JSON.parse`, the stored
credential as an `Option<string>`, the remote endpoint's answer as an
`ApiReply`, and the clock-derived ids as plain strings.

Where the descriptive documentation of the program and its code differ, the
model follows the code:

- the parser can return an empty list (a reply made only of whitespace) and
  empty entries (a line made only of list markup such as `1.`), although the
  documentation speaks of one to four non-empty suggestions
  (`AiService.ParseBlankExample`, `AiService.ParseEmptyEntryExample`);
- a stored empty credential counts as no credential;
- the code has no operation to delete a task, regenerate suggestions,
  rename or delete a subtask, or change a task's priority, so none is
  modelled.

## Model

| member | source | states |
|---|---|---|
| Text.Trim | src/services/aiService.ts:64-65 | the result is the piece of the string left after removing only the whitespace before it and after it: it occurs in the string with blank text on both sides, and is empty or starts and ends with a non-space; it is empty exactly for a blank string |
| Text.TrimOccurs | src/services/aiService.ts:65 | the trimmed string is a contiguous piece of the original |
| Text.TrimIdempotent | src/components/TaskCard.tsx:84-85 | trimming an already trimmed title changes nothing |
| Text.TrimmedNotBlank | src/components/TaskCard.tsx:84-85 | a non-empty trimmed title is not blank, so the non-blank check and the value passed on agree |
| Text.ToLower | src/services/aiService.ts:75 | lower-casing keeps the length, maps each character and leaves no upper-case letter |
| Text.ToLowerIdempotent | src/services/aiService.ts:75 | lower-casing twice is lower-casing once |
| Text.SplitLines | src/services/aiService.ts:63 | splitting yields at least one piece and no piece holds a line feed |
| Text.SplitSingleLine | src/services/aiService.ts:63 | text without a line feed splits into itself alone |
| Text.SplitAtLineFeed | src/services/aiService.ts:63 | a line feed splits the text into the line before it and the split of the rest |
| Text.SplitJoin | src/services/aiService.ts:63 | joining the pieces with line feeds gives the original text back |
| Text.Contains | src/services/aiService.ts:77-113 | `includes`: the keyword occurs at some position of the title |
| Text.MissingCharNotContained | src/services/aiService.ts:77 | a keyword cannot be found in a title lacking one of its characters |
| AiService.FallbackSuggestions | src/services/aiService.ts:74-129 | always four non-empty tips; the first keyword found in the lower-cased title (report, meeting, design, code or develop, email or message) picks the list, and the general list is used exactly when none is found |
| AiService.FallbackIgnoresCase | src/services/aiService.ts:75 | the choice of fallback list does not depend on letter case |
| AiService.FallbackMeetingExample | src/services/aiService.ts:86-94 | "Team meeting notes" gets the meeting tips |
| AiService.FallbackDefaultExample | src/services/aiService.ts:122-128 | a title with no keyword gets the general tips |
| AiService.FallbackOrderExample | src/services/aiService.ts:77-94 | a title with both "meeting" and "report" gets the report tips, because report is tested first |
| AiService.MarkerEnd | src/services/aiService.ts:65 | the leading run of digits, hyphens, dots and whitespace ends at the first other character |
| AiService.StripMarker | src/services/aiService.ts:65 | the stripped line is the suffix of the line after a run of marker characters, and starts with no marker character |
| AiService.CleanLine | src/services/aiService.ts:65 | the cleaned line sits in the raw line exactly where the maximal leading run of digits, hyphens, dots and whitespace ends, only whitespace follows it, and it is empty or starts with no marker character and ends with no whitespace |
| AiService.CleanLineOccurs | src/services/aiService.ts:65 | a cleaned line is a contiguous piece of the raw line |
| AiService.KeepNonBlank | src/services/aiService.ts:64 | the filter keeps only non-blank lines, each taken from the input |
| AiService.KeepNonBlankAppend | src/services/aiService.ts:64 | the filter keeps order: filtering a concatenation concatenates the filtered parts |
| AiService.KeepNonBlankMembers | src/services/aiService.ts:64 | a line survives the filter exactly when it is in the input and not blank |
| AiService.CleanAll | src/services/aiService.ts:65 | cleaning maps each line by itself and keeps the count |
| AiService.ParseSuggestions | src/services/aiService.ts:62-66 | at most four entries; exactly min(4, number of non-blank lines); entry i is the cleaned i-th non-blank line; no entry starts with list markup |
| AiService.ParseHasNoLineFeed | src/services/aiService.ts:62-66 | no parsed entry holds a line feed |
| AiService.ParseBlankExample | src/services/aiService.ts:62-66 | a whitespace-only reply parses to no entry |
| AiService.ParseEmptyEntryExample | src/services/aiService.ts:62-66 | a reply "1." parses to one empty entry |
| AiService.IsOk | src/services/aiService.ts:50 | `response.ok`: a status from 200 to 299 |
| AiService.Usable | src/services/aiService.ts:50-59 | a reply passes both checks of the remote path: a 2xx status and non-empty text |
| AiService.OpenAISuggestions | src/services/aiService.ts:25-71 | the remote path succeeds exactly for a 2xx reply with non-empty text, then yields the parsed reply; a non-2xx status is an error carrying that status |
| AiService.GenerateTaskSuggestions | src/services/aiService.ts:131-151 | at most four entries; without a credential the fallback; with one, the parsed reply when usable and the fallback on any failure |
| AiService.HasApiKey | src/services/aiService.ts:137 | a credential counts only when stored and non-empty, as JavaScript truthiness decides |
| AiService.NoKeyIgnoresReply | src/services/aiService.ts:137-140 | without a credential the remote reply has no influence |
| TaskCard.CompletedCount | src/components/TaskCard.tsx:78 | the number of ticked subtasks is at most the checklist length, equals it exactly when all are ticked and is 0 exactly when none is |
| TaskCard.CompletedCountAppend | src/components/TaskCard.tsx:78 | counting ticked subtasks is additive over concatenation |
| TaskCard.CompletedCountSingle | src/components/TaskCard.tsx:78 | one subtask counts 1 when ticked and 0 otherwise, so with the additive lemma the count is the number of ticked subtasks |
| TaskCard.RoundedPercent | src/components/TaskCard.tsx:80 | the result is the integer nearest to 100 * completed / total, halves rounded up; it is within 0..100, 100 when all are done and 0 when none is |
| TaskCard.NearestInteger | src/components/TaskCard.tsx:80 | (200c + n) div 2n lies within one half of 100c/n, below or at the lower side, which is what `Math.round` computes |
| TaskCard.ProgressPercentage | src/components/TaskCard.tsx:79-81 | 0 for an empty checklist; within 0..100; 100 for an all-ticked checklist; 0 when nothing is ticked |
| TaskCard.UnfinishedBelowHundred | src/components/TaskCard.tsx:80 | with fewer than 200 subtasks an unfinished checklist shows less than 100 |
| TaskCard.RoundingReachesHundredEarly | src/components/TaskCard.tsx:80 | with 200 subtasks, 199 ticked already rounds to 100 |
| TaskCard.StartedAboveZero | src/components/TaskCard.tsx:80 | with at most 200 subtasks, one ticked subtask shows more than 0 |
| TaskCard.Card.constructor | src/components/TaskCard.tsx:69-72 | a card starts outside edit mode, with the task's title in the edit field and an empty, closed subtask entry |
| TaskCard.Card.StartEditing | src/components/TaskCard.tsx:122 | the pen button enters edit mode |
| TaskCard.Card.SetNewTitle | src/components/TaskCard.tsx:109 | typing replaces the edit field |
| TaskCard.Card.HandleEditSave | src/components/TaskCard.tsx:83-88 | a blank title calls nothing and keeps edit mode; otherwise the task id and the trimmed, non-blank title are passed on and edit mode ends |
| TaskCard.Card.StartAddingSubtask | src/components/TaskCard.tsx:180 | the button opens the subtask entry |
| TaskCard.Card.SetNewSubtask | src/components/TaskCard.tsx:168 | typing replaces the subtask field |
| TaskCard.Card.HandleAddSubtask | src/components/TaskCard.tsx:90-96 | a blank entry calls nothing and changes nothing; otherwise the task id and the trimmed, non-blank title are passed on, the field is cleared and the entry closes |
| TaskCard.Card.Draggable | src/components/TaskCard.tsx:101 | the card offers dragging only while neither the title nor a new subtask is being edited |
| TaskCard.Card.HandleDragStart | src/components/TaskCard.tsx:101-102 | the task is handed over exactly when the card is neither being renamed nor given a subtask |
| UseTasks.LoadTasks | src/hooks/useTasks.ts:8-20 | non-empty stored text that parses gives the parsed list; nothing stored, an empty string or unparsable text gives the empty list |
| UseTasks.NewTask | src/hooks/useTasks.ts:42-49 | a new task always goes to the to-do column, whatever column the draft names |
| UseTasks.AppendedTasks | src/hooks/useTasks.ts:51 | the list grows by one, keeps its old tasks as a prefix and ends with the new task |
| UseTasks.MovedTasks | src/hooks/useTasks.ts:62-67 | same length; every task with the id gets the target column, every other is unchanged; no field but the column changes |
| UseTasks.EditedTasks | src/hooks/useTasks.ts:79-84 | same length; every task with the id gets the new title; no field but the title changes |
| UseTasks.TasksWithSubtask | src/hooks/useTasks.ts:88-107 | same length; every task with the id gets one unticked subtask appended with the given id and title; other tasks and other fields are unchanged |
| UseTasks.ToggledSubtasks | src/hooks/useTasks.ts:118-122 | same length; every subtask with the id flips its tick; no other field changes |
| UseTasks.TasksWithToggled | src/hooks/useTasks.ts:112-127 | same length; only the checklists of tasks with the id change, by toggling |
| UseTasks.MoveIdempotent | src/hooks/useTasks.ts:62-67 | moving twice to the same column is moving once |
| UseTasks.MoveUnknownIsNoop | src/hooks/useTasks.ts:62-67 | moving an id not on the board changes nothing |
| UseTasks.EditIdempotent | src/hooks/useTasks.ts:79-84 | renaming twice to the same title is renaming once |
| UseTasks.EditUnknownIsNoop | src/hooks/useTasks.ts:79-84 | renaming an id not on the board changes nothing |
| UseTasks.AddSubtaskUnknownIsNoop | src/hooks/useTasks.ts:88-107 | adding a subtask to an id not on the board changes nothing |
| UseTasks.ToggleUnknownIsNoop | src/hooks/useTasks.ts:112-127 | toggling on an id not on the board changes nothing |
| UseTasks.ToggleSubtasksTwice | src/hooks/useTasks.ts:118-122 | toggling a checklist twice restores it |
| UseTasks.ToggleSelfInverse | src/hooks/useTasks.ts:112-127 | toggling the same subtask twice restores the whole list |
| UseTasks.ToggleKeepsChecklistShape | src/hooks/useTasks.ts:112-127 | toggling keeps every checklist's length, ids and titles |
| UseTasks.AppendKeepsTitlesNotBlank | src/hooks/useTasks.ts:51 | appending a task with a visible title keeps every title visible |
| UseTasks.MoveKeepsTitlesNotBlank | src/hooks/useTasks.ts:62-67 | moving keeps every title visible |
| UseTasks.EditKeepsTitlesNotBlank | src/hooks/useTasks.ts:79-84 | renaming to a visible title keeps every title visible |
| UseTasks.AddSubtaskKeepsTitlesNotBlank | src/hooks/useTasks.ts:88-107 | adding a subtask with a visible title keeps every title visible |
| UseTasks.ToggleKeepsTitlesNotBlank | src/hooks/useTasks.ts:112-127 | toggling keeps every title visible |
| UseTasks.TaskStore.constructor | src/hooks/useTasks.ts:23-25 | the store starts with the loaded list, not loading, dialog closed |
| UseTasks.TaskStore.SetModalOpen | src/hooks/useTasks.ts:133 | the dialog flag is set as asked |
| UseTasks.TaskStore.BeginAddTask | src/hooks/useTasks.ts:34 | creation starts by raising the loading flag |
| UseTasks.TaskStore.CompleteAddTask | src/hooks/useTasks.ts:42-58 | the new task is appended to the list as it is then, the dialog closes and loading ends |
| UseTasks.TaskStore.AddTask | src/hooks/useTasks.ts:32-60 | the list becomes the old list plus one to-do task with the draft's title, priority and subtasks and the generated suggestions; dialog closed, not loading |
| UseTasks.TaskStore.MoveTask | src/hooks/useTasks.ts:62-67 | the list is replaced by its moved version |
| UseTasks.TaskStore.EditTask | src/hooks/useTasks.ts:79-84 | the list is replaced by its renamed version |
| UseTasks.TaskStore.AddSubtask | src/hooks/useTasks.ts:88-107 | the list is replaced by its version with the subtask appended |
| UseTasks.TaskStore.ToggleSubtask | src/hooks/useTasks.ts:112-127 | the list is replaced by its toggled version |
| UseTasks.CreateReportScenario | src/hooks/useTasks.ts:42-49 | creating "Write report" with high priority and no credential yields a high-priority to-do task with the report tips |
| IndexPage.ColumnTasks | src/pages/Index.tsx:50-52 | a column shows only tasks of that column, each taken from the board |
| IndexPage.ColumnTasksMembers | src/pages/Index.tsx:50-52 | a task shows in a column exactly when it is on the board with that column |
| IndexPage.ColumnTasksMembersAll | src/pages/Index.tsx:50-52 | the membership fact for every task at once |
| IndexPage.ColumnTasksAppend | src/pages/Index.tsx:50-52 | the filter keeps list order |
| IndexPage.ColumnsPartition | src/pages/Index.tsx:50-52 | the three column lengths add up to the board's length |
| IndexPage.MovedTaskShowsInTarget | src/pages/Index.tsx:41-52 | after a move, a moved task shows in the target column and in no other |
| IndexPage.Board.constructor | src/pages/Index.tsx:12-23 | the page starts with a fresh store holding the loaded list and nothing dragged |
| IndexPage.Board.TodoTasks | src/pages/Index.tsx:50 | the to-do column shows exactly the board's to-do tasks |
| IndexPage.Board.InProgressTasks | src/pages/Index.tsx:51 | the in-progress column shows exactly the board's in-progress tasks |
| IndexPage.Board.DoneTasks | src/pages/Index.tsx:52 | the done column shows exactly the board's done tasks |
| IndexPage.Board.HandleDragStart | src/pages/Index.tsx:33-35 | the dragged task is remembered |
| IndexPage.Board.HandleDrop | src/pages/Index.tsx:41-47 | with a remembered task, every task with its id moves to the drop column and the memory is cleared; without one nothing changes |
| AddTaskModal.AddTaskForm.constructor | src/components/AddTaskModal.tsx:30-31 | the form starts with an empty title and medium priority |
| AddTaskModal.AddTaskForm.SetTitle | src/components/AddTaskModal.tsx:64 | typing replaces the title |
| AddTaskModal.AddTaskForm.SetPriority | src/components/AddTaskModal.tsx:77 | choosing sets the priority |
| AddTaskModal.AddTaskForm.HandleSubmit | src/components/AddTaskModal.tsx:33-45 | a blank title submits nothing and keeps the form; otherwise a to-do draft with the trimmed, non-blank title, the chosen priority and no subtasks is handed over and the form resets |
| AddTaskModal.SubmitDisabled | src/components/AddTaskModal.tsx:99 | the button is disabled exactly when the trimmed title is empty or a task is being created |
| AddTaskModal.EnabledSubmitHasVisibleTitle | src/components/AddTaskModal.tsx:99 | when the submit button is enabled, the trimmed title is non-empty and not blank |

## Left out

- Browser storage: reading and writing the task list and the credential is I/O; the stored text and the credential are inputs, and the write-back effect of `useTasks.ts` is not modelled.
- `JSON.parse` and `JSON.stringify`: `parse` is a parameter of `LoadTasks`; no round trip between the two is stated, and parsed data is trusted as the program trusts it.
- The remote request: `fetch` and `response.json()` are replaced by an `ApiReply` value; the request body (model name, prompt, temperature, token limit) is not modelled.
- `Date.now()` ids: task and subtask ids are parameters, so their uniqueness is not modelled; every update applies to all tasks sharing an id, as the code's `map` does.
- TaskCard.RoundedPercent: models `Math.round` of the floating-point quotient as exact round-half-up of the rational value; the floating-point error of `completed / total * 100` near a half is not captured.
- Text.Trim: whitespace, lower-casing and the `\s` class are ASCII only; Unicode spaces and letters are not modelled.
- The `|| []` guards in `useTasks.ts` (lines 46 and 48) and `TaskCard.tsx` (line 75) cannot fire in the typed model, where suggestions and subtasks are always lists.
- The error branch of `addTask` (toast and console message) cannot be reached here, since `GenerateTaskSuggestions` never fails; toasts, console output and rendering are left out.
- UseTasks.TaskStore.AddTask: the asynchronous gap is modelled only through the `BeginAddTask`/`CompleteAddTask` split; other updates running during the wait are not interleaved in one method.
- The checkbox of a subtask only forwards its ids to `toggleSubtask`; that pass-through is not a separate member.
- `TaskColumn.tsx`, the priority label and `APIKeyModal.tsx` are presentation or credential entry and are not part of this model.
- The board's `hasApiKey` flag and the credential dialog are not modelled.
