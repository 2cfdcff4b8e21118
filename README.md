# Kanban marketing board: the task-list model

This project models the logic underneath a small Kanban board for a marketing
team. Tasks are grouped in a grid of columns (workflow stages) and lanes
(kinds of work), plus a separate backlog column. The model covers:

- how the board's in-memory list of tasks changes: move, create, create in
  the backlog, update the content, and the two drop handlers that decide
  whether a move happens at all;
- the views derived from the list: the backlog tasks, the grid columns, and
  the tasks of one grid cell;
- how the edit dialog loads a task into five form fields, appends tag
  suggestions, and turns the form back into a task: content trimmed, tags
  parsed from comma-separated text, empty strings stored as absent;
- how the import dialog turns parsed JSON into new tasks, with defaults and
  one temporary id per array index, or into an error message;
- how the persistence service uses the `task-` prefix of temporary ids to
  choose between insert and update, and to skip the store when a card is
  moved or deleted;
- the renaming between task records and rows of the remote `tasks` table;
- a card's priority colours, its drag payload, and the empty branch of its
  date formatting;
- the shipped columns, lanes and seed tasks.

One module per source file: `Types` (src/types.ts), `Data`, `Supabase`,
`TaskService`, `StickyNote`, `KanbanBoard`, `EditTaskDialog` and
`ImportTasksDialog`. `Wrappers` (an `Option` type), `Strings` (prefix test,
trim, comma split and join, decimal rendering) and `Seqs` (filter) hold the
library operations the source relies on.

State that the source updates in place is modelled as a class:

- `KanbanBoard.Board` holds the `tasks` list.
- `EditTaskDialog.EditForm` holds the five form fields.
- `ImportTasksDialog.ImportForm` holds the text area and the error banner.
- `TaskService.TaskStore` holds the remote table, as a map from primary key
  to row.

Each remote call takes a `fails` flag that stands for a store or transport
error on that call. An insert also takes the key the store would mint.

Facts about the code that a reader might not expect:

- The service's `moveTask` returns `false` for a temporary id, while its
  `deleteTask` returns `true` for one; neither touches the store.
- Nothing validates a placement before a move: any column and lane are
  accepted.
- The import sets every lane to `''`; it does not assign the first lane.
- A backlog drop keeps the task's previous lane instead of clearing it.
- The board component never calls the persistence service, so the two are
  modelled side by side and not wired together.
- `getAllTasks` returns `[]` on an error. No fallback to the seed tasks
  appears in the code.

## Model

| member | source | states |
|---|---|---|
| Data.ColumnsWellFormed | src/data.ts:4-11 | the shipped column ids are pairwise distinct, and the backlog column is present and first |
| Data.LanesWellFormed | src/data.ts:13-18 | the shipped lane ids are pairwise distinct |
| Data.SeedPlacementsConfigured | src/data.ts:20-29 | every seed task's column and lane are configured, including backlog task-1 in lane `ideation` |
| Data.SeedIdsTemporary | src/data.ts:20-29 | the seed ids are pairwise distinct and all start with `task-`, so the service treats them as temporary |
| Strings.Trim | src/components/EditTaskDialog.tsx:45 | `trim()` leaves neither end as whitespace |
| Strings.TrimPadded | src/components/EditTaskDialog.tsx:45 | the input is the trimmed text with whitespace before and after it, so trimming removes only whitespace |
| Strings.TrimIdempotent | src/components/EditTaskDialog.tsx:41 | trimming twice is the same as trimming once |
| Strings.Split | src/components/EditTaskDialog.tsx:41 | `split(',')` yields at least one piece, and no piece holds a comma |
| Strings.JoinSplit | src/components/EditTaskDialog.tsx:26-41 | joining the pieces of a split with `,` gives back the text |
| Strings.SplitJoin | src/components/EditTaskDialog.tsx:26-41 | splitting a `,` join of comma-free strings gives back the strings |
| Strings.SplitConcat | src/components/EditTaskDialog.tsx:41 | the pieces of `a,b` are the pieces of `a` followed by those of `b` |
| Strings.DecimalInjective | src/components/ImportTasksDialog.tsx:28 | different numbers print as different decimal strings |
| Supabase.TagsOrEmpty | src/lib/supabase.ts:22 | absent tags read as `[]`; present tags are kept |
| Supabase.MapDbTaskToTask | src/lib/supabase.ts:16-25 | each snake_case column lands in its camelCase field, and the tags are never absent |
| Supabase.MapTaskToDbTask | src/lib/supabase.ts:27-36 | the id is dropped exactly for `task-` ids and kept otherwise; the other fields are renamed one to one |
| Supabase.RoundTrip | src/lib/supabase.ts:16-36 | writing a task and reading its row back gives the task under the key it was stored with, absent tags becoming `[]` |
| Supabase.RoundTripPermanent | src/lib/supabase.ts:16-36 | for a permanent id, the payload carries the id and the round trip is exact, up to absent tags |
| Supabase.RowRoundTrip | src/lib/supabase.ts:16-36 | reading a row and writing it back reproduces the row, with null tags stored as `[]` |
| Types.IsTemporary | src/lib/supabase.ts:28 | `startsWith('task-')`: the id begins with the prefix, so a temporary id is never empty |
| Types.OrUndefined | src/components/EditTaskDialog.tsx:47-49 | the `or undefined` default: absent exactly when the string is absent or empty, the value unchanged otherwise |
| TaskService.UsesUpdatePath | src/lib/taskService.ts:23 | a save updates only for a non-empty id without the `task-` prefix; every other id is inserted |
| TaskService.InsertKey | src/lib/taskService.ts:38-43 | an insert writes under the payload's own id when it has one, under the minted key otherwise |
| TaskService.UpdatePathCarriesId | src/lib/taskService.ts:23 | a save takes the update path exactly when the id is non-empty and its payload keeps the id |
| TaskService.InsertKeyOfTask | src/lib/taskService.ts:38-43 | a temporary task is inserted under the minted key; any other inserted task keeps its own id |
| TaskService.TaskStore.GetAllTasks | src/lib/taskService.ts:5-16 | on error `[]`; otherwise exactly one mapped task per row, with distinct ids covering every key |
| TaskService.TaskStore.SaveTask | src/lib/taskService.ts:19-52 | update path: the row with the task's id is rewritten and the task comes back (tags defaulted), or on error or a missing row `None` and no change; insert path: a new row under the payload id or the minted key, or on error `None` and no change |
| TaskService.TaskStore.MoveTask | src/lib/taskService.ts:55-72 | a temporary id returns `false` and leaves the store alone; on error `false`; otherwise `true`, and only `column_id` and `lane_id` of that row change |
| TaskService.TaskStore.DeleteTask | src/lib/taskService.ts:75-92 | a temporary id returns `true` and leaves the store alone; on error `false`; otherwise `true` and the row is gone |
| TaskService.TemporaryGuards | src/lib/taskService.ts:55-92 | on the same temporary id a move reports failure and a delete reports success, and neither writes |
| TaskService.DeleteTwice | src/lib/taskService.ts:75-92 | deleting an id twice succeeds both times, and the table loses that row and nothing else |
| StickyNote.DragStartData | src/components/StickyNote.tsx:12-15 | a drag start stores exactly the task id, under the key `taskId` |
| StickyNote.GetData | src/components/KanbanBoard.tsx:80 | reading drag data gives the stored string, or `''` when the key is missing |
| StickyNote.DragDataRoundTrip | src/components/StickyNote.tsx:13 | what a drop target reads under `taskId` is the id of the dragged card |
| StickyNote.PriorityColor | src/components/StickyNote.tsx:22-29 | high is red, medium yellow, low green, and an unset priority white/gray |
| StickyNote.PriorityColorsDistinct | src/components/StickyNote.tsx:23-28 | the four colour results are pairwise distinct |
| StickyNote.FormatDate | src/components/StickyNote.tsx:32-42 | an absent or empty date formats as `''`; any other date gives its locale rendering, or the date itself when formatting throws |
| KanbanBoard.MoveTo | src/components/KanbanBoard.tsx:25 | the task gets the target column, the target lane unless that is `null`, and keeps every other field |
| KanbanBoard.Moved | src/components/KanbanBoard.tsx:22-28 | same length and order; tasks with another id are unchanged; a matching task gets the target column, and the target lane unless that is `null`, with every other field unchanged |
| KanbanBoard.MovedAbsent | src/components/KanbanBoard.tsx:22-28 | moving an id that is not on the board leaves the list unchanged |
| KanbanBoard.MovedIdempotent | src/components/KanbanBoard.tsx:22-28 | repeating a move changes nothing more |
| KanbanBoard.MovedKeepsIds | src/components/KanbanBoard.tsx:22-28 | a move never changes which ids are on the board |
| KanbanBoard.ContentUpdated | src/components/KanbanBoard.tsx:53-58 | same length and order; only the content of tasks with that id changes |
| KanbanBoard.ContentUpdatedAbsent | src/components/KanbanBoard.tsx:53-58 | updating an id that is not on the board leaves the list unchanged |
| KanbanBoard.NewTaskId | src/components/KanbanBoard.tsx:33 | a minted id starts with `task-` |
| KanbanBoard.NewTask | src/components/KanbanBoard.tsx:31-40 | the new cell task has a temporary id, the placeholder content, the given column and lane, and no metadata |
| KanbanBoard.NewBacklogTask | src/components/KanbanBoard.tsx:42-51 | the new backlog task has a temporary id, column `backlog`, lane `''` and no metadata |
| KanbanBoard.BacklogDropAccepted | src/components/KanbanBoard.tsx:99 | a backlog drop goes ahead exactly when a task id was dragged and the target has a non-empty column id |
| KanbanBoard.CellDropAccepted | src/components/KanbanBoard.tsx:84 | a cell drop needs what a backlog drop needs and, in addition, a non-empty lane id |
| KanbanBoard.DragToCell | src/components/KanbanBoard.tsx:84-88 | a card dropped on a cell is moved exactly when its id and the cell's column and lane are all non-empty |
| KanbanBoard.DropWithoutTaskId | src/components/KanbanBoard.tsx:80-103 | a drop without a `taskId` entry is refused by both handlers |
| KanbanBoard.BacklogTasks | src/components/KanbanBoard.tsx:18 | the backlog view holds exactly the tasks in column `backlog` |
| KanbanBoard.BacklogTasksInOrder | src/components/KanbanBoard.tsx:18 | the backlog view keeps list order: it distributes over concatenation |
| KanbanBoard.MainGridColumns | src/components/KanbanBoard.tsx:17 | the grid holds exactly the columns other than `backlog` |
| KanbanBoard.BacklogColumn | src/components/KanbanBoard.tsx:16 | the backlog lookup finds a column exactly when one has the backlog id, and the one found is the first such column |
| KanbanBoard.CellTasks | src/components/KanbanBoard.tsx:211 | a cell shows exactly the tasks with its column and lane |
| KanbanBoard.CellTasksInOrder | src/components/KanbanBoard.tsx:211 | a cell's view keeps list order |
| KanbanBoard.BacklogNeverInGrid | src/components/KanbanBoard.tsx:17-18 | no task of a grid cell is in the backlog view |
| KanbanBoard.AtMostOneCell | src/components/KanbanBoard.tsx:211 | a task is shown in at most one cell |
| KanbanBoard.BacklogDropShowsInBacklog | src/components/KanbanBoard.tsx:99-100 | after a backlog drop the task is in the backlog view and in no grid cell, and it keeps its old lane |
| KanbanBoard.InitialBacklogColumn | src/components/KanbanBoard.tsx:16 | the shipped configuration has a backlog column, so the board renders |
| KanbanBoard.InitialGridColumns | src/components/KanbanBoard.tsx:17 | removing backlog from the shipped columns leaves todo, inprogress, review, clientreview and done, in that order |
| KanbanBoard.Board.constructor | src/components/KanbanBoard.tsx:12-14 | the board starts from the shipped columns, lanes and seed tasks |
| KanbanBoard.Board.MoveTask | src/components/KanbanBoard.tsx:20-29 | the list becomes the moved list |
| KanbanBoard.Board.CreateTask | src/components/KanbanBoard.tsx:31-40 | exactly one new cell task is appended; earlier tasks are unchanged |
| KanbanBoard.Board.CreateBacklogTask | src/components/KanbanBoard.tsx:42-51 | exactly one new backlog task is appended; earlier tasks are unchanged |
| KanbanBoard.Board.UpdateTaskContent | src/components/KanbanBoard.tsx:53-60 | the list becomes the content-updated list |
| KanbanBoard.Board.HandleDropOnCell | src/components/KanbanBoard.tsx:75-89 | with a task id, column and lane the task moves to that cell; otherwise the list is unchanged |
| KanbanBoard.Board.HandleDropOnBacklog | src/components/KanbanBoard.tsx:91-104 | with a task id and column the task moves there, keeping its lane; otherwise the list is unchanged |
| EditTaskDialog.CleanTags | src/components/EditTaskDialog.tsx:41 | trimmed, filtered pieces: each non-empty and trimmed, no more of them than pieces |
| EditTaskDialog.CleanTagsAppend | src/components/EditTaskDialog.tsx:41 | cleaning keeps order: it distributes over concatenation |
| EditTaskDialog.ParseTags | src/components/EditTaskDialog.tsx:41 | every parsed tag is non-empty, trimmed and comma-free |
| EditTaskDialog.ParseTagsConcat | src/components/EditTaskDialog.tsx:41 | the tags of `a,b` are the tags of `a` followed by those of `b`: comma-split order |
| EditTaskDialog.ParseTagsSingle | src/components/EditTaskDialog.tsx:41 | a comma-free text parses to its trimmed self, or to nothing when that is empty |
| EditTaskDialog.LoadedForm | src/components/EditTaskDialog.tsx:21-36 | the form shows the task's fields (absent date and colour as `''`, tags joined with `, `), or is all empty without a task |
| EditTaskDialog.Save | src/components/EditTaskDialog.tsx:38-52 | nothing without a task; otherwise id, column and lane are kept, content is trimmed, the date and colour are kept as typed or become absent when empty, and the tags are the parsed list or absent when that is empty |
| EditTaskDialog.SaveNormalises | src/components/EditTaskDialog.tsx:43-50 | a saved task has trimmed content, no empty date or colour, and only non-empty lists of well-formed tags |
| EditTaskDialog.TagsRoundTrip | src/components/EditTaskDialog.tsx:26-41 | joining well-formed tags with `, ` and parsing them back gives the same tags |
| EditTaskDialog.LoadSaveRoundTrip | src/components/EditTaskDialog.tsx:21-52 | opening a normalised task and saving without edits returns it unchanged |
| EditTaskDialog.SaveStable | src/components/EditTaskDialog.tsx:21-52 | saving, reopening and saving again changes nothing more |
| EditTaskDialog.EmptyTagsBecomeAbsent | src/components/EditTaskDialog.tsx:26-48 | an empty tag list does not survive an unedited save: it comes back absent |
| EditTaskDialog.CurrentTags | src/components/EditTaskDialog.tsx:162 | no tags for an empty text; otherwise one trimmed entry per comma piece |
| EditTaskDialog.WithSuggestion | src/components/EditTaskDialog.tsx:161-165 | a suggestion already among the current tags leaves the text alone; otherwise it becomes the text, or is appended after `, ` |
| EditTaskDialog.SuggestionPresent | src/components/EditTaskDialog.tsx:161-165 | after the click the suggestion is among the current tags |
| EditTaskDialog.SuggestionIdempotent | src/components/EditTaskDialog.tsx:161-165 | clicking the same suggestion twice is the same as clicking it once |
| EditTaskDialog.SuggestionAppends | src/components/EditTaskDialog.tsx:161-165 | a new suggestion is parsed as one more tag after the ones already typed, which are kept |
| EditTaskDialog.SuggestionsWellFormed | src/components/EditTaskDialog.tsx:157 | the offered suggestions are well-formed tags |
| EditTaskDialog.EditForm.constructor | src/components/EditTaskDialog.tsx:15-19 | the form starts empty |
| EditTaskDialog.EditForm.LoadTask | src/components/EditTaskDialog.tsx:21-36 | the five fields become the loaded form of the task |
| EditTaskDialog.EditForm.AddSuggestion | src/components/EditTaskDialog.tsx:161-165 | the tag text becomes the text with the suggestion, and no other field changes |
| EditTaskDialog.EditForm.HandleSave | src/components/EditTaskDialog.tsx:38-52 | the task handed to `onSave` is the save of the current fields |
| ImportTasksDialog.ImportId | src/components/ImportTasksDialog.tsx:28 | an import id starts with `task-`, so the store will insert it |
| ImportTasksDialog.ImportIdInjective | src/components/ImportTasksDialog.tsx:28 | different indices give different ids, whatever the clock read for each of them |
| ImportTasksDialog.ImportItem | src/components/ImportTasksDialog.tsx:31-40 | the task has the given id and lane `''`, always has content, a column, a priority and a tag list, and never an empty date or colour |
| ImportTasksDialog.ImportItemDefaults | src/components/ImportTasksDialog.tsx:31-40 | missing or falsy fields take their defaults: content `Task senza contenuto`, column `todo`, priority low, tags `[]`, and no date or colour; the lane is `''` |
| ImportTasksDialog.ImportItemCopies | src/components/ImportTasksDialog.tsx:33-39 | truthy fields are copied unchanged |
| ImportTasksDialog.MapItems | src/components/ImportTasksDialog.tsx:26-41 | nothing when some item is `null`; otherwise one task per item, in order, each id built from that item's own clock reading and index |
| ImportTasksDialog.ImportedIds | src/components/ImportTasksDialog.tsx:26-28 | the ids of one import are pairwise distinct and all temporary, even when the clock moves between items |
| ImportTasksDialog.ImportedLaneless | src/components/ImportTasksDialog.tsx:35 | every imported task has lane `''` |
| ImportTasksDialog.NullItemImportsNothing | src/components/ImportTasksDialog.tsx:26-52 | an array holding a `null` item imports nothing |
| ImportTasksDialog.ImportForm.constructor | src/components/ImportTasksDialog.tsx:11-12 | the text area and the error start empty |
| ImportTasksDialog.ImportForm.HandleImport | src/components/ImportTasksDialog.tsx:14-54 | a non-array sets the format error and imports nothing; a parse failure, or a mapping that throws, sets the parse error and imports nothing; otherwise the mapped tasks go to `onImport` and the input and error are cleared |

## Left out

- Rendering, CSS classes, layout constants, the DOM `classList` feedback, the
  dialogs' open and close wiring (`isOpen`, `onClose`) and the keyboard
  shortcut: they hold no logic that a contract can state.
- src/components/Cell.tsx and src/App.tsx are not part of this model. They
  only render and compose the components.
- The text inputs' own change handlers (`setContent`, `setTags`,
  `setJsonInput` and the rest) are plain field assignments and are not
  modelled.
- `JSON.parse` is a library call. The import dialog is given its outcome as a
  `Parsed` value: an array of items, a non-array, or a failure.
- ImportTasksDialog.ItemFields: a field holding a truthy value that is not a
  string (a number, an object) cannot be represented. Nor can a priority
  string other than low, medium or high. The source would copy such values
  as they are.
- The Supabase client, its configuration check and the network calls are
  foreign I/O. The table is a map, and every call may fail.
- TaskService.TaskStore.SaveTask: the client library leaves `undefined`
  fields out of an update payload. The model writes the whole row, so an
  absent field becomes null in the row.
- TaskService.TaskStore.GetAllTasks: the order in which the store returns its
  rows is not specified. The contract states which tasks come back, not their
  order.
- Async interleaving of in-flight calls is not modelled: the only question
  there is concurrency.
- `Date.now()` and `Math.random()` in the id templates become parameters: a
  created task gets `now` and `suffix`; an import gets `stamps`, one clock
  reading per item, since the clock is read again for each item.
- StickyNote.FormatDate: `new Date(...)` and `toLocaleDateString` depend on
  the locale and time zone. Their result is the parameter `localized`, with
  `None` standing for a throw. Only the empty-input branch is computed.
- `console.log` and `console.error` output.
- Strings.Trim: it uses an explicit whitespace set: ASCII whitespace, the
  no-break space, the line and paragraph separators and the byte-order mark.
  Most Unicode space separators, which JavaScript's `trim` also removes, are
  not in the set.
