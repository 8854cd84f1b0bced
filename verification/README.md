# task-board in Dafny

This project models the core of *task-board*, a Next.js kanban board, and proves properties of that model. The core has two halves.

**The server half** is the `/api/kb` route handlers, which keep boards, columns and tasks in three Postgres tables:

- `kb_boards`: one board per device.
- `kb_columns`: rows keyed by `board_id`, each with a `position`.
- `kb_tasks`: rows keyed by `column_id`, each with a `position`.

Every request names its device with an `X-Device-Id` header. That header must be an RFC 4122 UUID. The handlers:

- `boot`: finds or creates the device's board, seeds it with three columns when it has none, and returns the board.
- `board`: returns the board.
- `tasks` and `columns` (POST): append a row at the next free position.
- `tasks/reorder` and `columns/reorder` (PATCH): set the positions of a parent's rows from an ordered list of ids.

**The client half** is the browser-side board, in three forms:

- The home page's handlers.
- The drag-and-drop `Board` and `Column` components.
- The Supabase-backed `useSupabaseTasks` hook.

Each form holds a `BoardData` (tasks and columns) and updates it through a small set of list operations: filter by column, move to a column, append, remove.

**How the model is organised:**

- **Tables.** The three tables are sequences of rows in table order (module `Tables`). They are owned by the class `Store.KanbanStore`, whose methods are the `INSERT` and `UPDATE` statements the handlers issue.
- **Handlers.** Each handler is a method over that store (modules `TasksRoute`, `ColumnsRoute`, `TasksReorderRoute`, `ColumnsReorderRoute`, `BoardRoute`, `BootRoute`). It takes the request fields as JSON values (`Common.Json`).
- **Database failures.** A database failure is a parameter, `fault: Option<Fault>`. It names the 0-based index of the query that throws and the error's message. A handler's contract states its reply and the new tables for every such outcome.
- **Generated keys.** Keys the database would generate (`gen_random_uuid()`) are parameters that the caller promises are unused.
- **Client state.** Each client-side component or hook is a class whose fields are its React state (`Page.Home`, `BoardComponent.BoardState`, `ColumnComponent.ColumnState`, `SupabaseTasks.TasksHook`). The list operations it uses are functions in `Kanban`.
- **Outside inputs.** Browser prompts, confirmations, clocks, uuid generators and Supabase query outcomes are parameters.

Two invariants run through the proofs:

- **Density.** The positions of one parent's children are exactly 0, ..., n-1 (`Positions.Dense`, `Tables.DenseUnder`, `Kanban.DensePerColumn`).
- **Well-formedness.** Ids are unique and every reference names an existing parent (`Tables.WellFormed`, `Kanban.RefsValid` with `Kanban.IdsDistinct`).

The operations that append at the next position, and the reorder by a full permutation of ids, are proved to keep the positions dense. Every operation is proved to keep the tables well formed.

## Model

| member | source | states |
|---|---|---|
| ApiHelpers.ErrorResponse | src/lib/api-helpers.ts:13-15 | the error reply carries the given message and status |
| ApiHelpers.ErrorResponseDefaultsTo400 | src/lib/api-helpers.ts:13-14 | without an explicit status the error reply has status 400 |
| ApiHelpers.MatchesPatternPointwise | src/lib/api-helpers.ts:3 | an anchored pattern of fixed-width character classes matches exactly the strings of its length whose every character is in the class at its offset |
| ApiHelpers.UuidPatternAt | src/lib/api-helpers.ts:3 | the device-id pattern is 36 positions long; it has hyphens at offsets 8, 13, 18 and 23, version digit 1-5 at offset 14, variant digit 8/9/a/b at offset 19, and hex digits elsewhere |
| ApiHelpers.UuidPatternIsRfc4122 | src/lib/api-helpers.ts:3 | a string matches the case-insensitive device-id pattern if and only if it is an RFC 4122 UUID text of versions 1-5 |
| ApiHelpers.GetDeviceId | src/lib/api-helpers.ts:5-11 | a device id is returned exactly when the header is present and is an RFC 4122 UUID, and it is the header unchanged |
| ApiHelpers.DeviceIdCaseInsensitive | src/lib/api-helpers.ts:3 | lower-casing a header does not change whether it is accepted |
| Validations.Utf16Length | src/lib/validations.ts:4 | the length that `min`/`max` check is between the character count and twice it, and equals the count when every character is in the Basic Multilingual Plane |
| Validations.TaskFormIssues | src/lib/validations.ts:3-9 | a task form has no issues iff its title is 1 to 100 UTF-16 units, its description (if any) at most 500, and its priority is low, medium or high |
| Validations.TitleRequiredIffEmpty | src/lib/validations.ts:4 | 'Title is required' is reported iff the title is empty |
| Validations.ColumnFormIssues | src/lib/validations.ts:11-15 | a column form has no issues iff its name is 1 to 50 units, its colour (if any) is `#` and six hex digits in either case, and its task limit (if any) is between 1 and 100 |
| Validations.BoardFormIssues | src/lib/validations.ts:17-20 | a board form has no issues iff its name is 1 to 100 units and its description (if any) at most 500 |
| Validations.TitleIssuesExclusive | src/lib/validations.ts:4 | a task form gets at most three issues, and never both title issues at once |
| Validations.BmpTitleLength | src/lib/validations.ts:4 | a title of at most 100 BMP characters passes the length bound |
| Validations.AstralCharCountsTwice | src/lib/validations.ts:4 | every character outside the BMP counts as two toward the length bound, every other character as one |
| Validations.Utf16LengthConcat | src/lib/validations.ts:4 | the length of a concatenation is the sum of the lengths, so a string's length is the sum of its characters' counts |
| Positions.NextPosition | src/app/api/kb/tasks/route.ts:47-52 | the allocated position is above every sibling's position, is 0 without siblings, and is one above an existing position otherwise |
| Positions.NextPositionOfDense | src/app/api/kb/columns/route.ts:45-50 | on dense positions the allocated position is the number of siblings |
| Positions.AppendKeepsDense | src/app/api/kb/columns/route.ts:45-55 | appending at the allocated position keeps the positions dense |
| Positions.RanksOfPermutationAreDense | src/app/api/kb/tasks/reorder/route.ts:24-28 | indexing a duplicate-free list of ids by a permutation of itself yields dense positions |
| Positions.SortByKey | src/app/api/kb/board/route.ts:50-53 | `ORDER BY` yields a sorted permutation of its input |
| Tables.BoardOf | src/app/api/kb/columns/route.ts:33-42 | the board lookup finds nothing iff the device has no board; otherwise it yields a stored board of that device |
| Tables.BoardOfIsTheDevicesBoard | src/app/api/kb/boot/route.ts:38-52 | with one board per device, the lookup yields that device's board |
| Tables.ChildrenOf | src/app/api/kb/board/route.ts:50-53 | selecting by parent keeps exactly the rows of that parent |
| Tables.OwnsColumnOnDevicesBoard | src/app/api/kb/tasks/route.ts:33-44 | on well-formed tables the ownership join succeeds iff the column is one of the columns of the device's board |
| Tables.ChildrenCount | src/app/api/kb/board/route.ts:50-53 | selecting by parent keeps each row of that parent exactly as often as it is stored, and no other row |
| Tables.ByPosition | src/app/api/kb/board/route.ts:50-53 | `ORDER BY position` sorts by position and is a permutation of its input |
| Tables.AppendAtNextPosition | src/app/api/kb/tasks/route.ts:46-57 | an insert at the allocated position adds the row after its siblings, changes no other parent's children, and keeps the parent's positions dense |
| Tables.NextChildPositionIsAbove | src/app/api/kb/columns/route.ts:44-50 | the allocated position is above every sibling's position, and 0 for a parent without children |
| Tables.Reposition | src/app/api/kb/tasks/reorder/route.ts:29-32 | the reorder statement changes no row's id, parent or payload |
| Tables.ReorderedRows | src/app/api/kb/tasks/reorder/route.ts:24-34 | a row of the parent whose id is at index i of the list gets position i; every other row is untouched |
| Tables.ChildrenOfReordered | src/app/api/kb/columns/reorder/route.ts:18-29 | the reorder acts only on the rows of its parent: selecting any parent's children commutes with it |
| Tables.ReorderedKeepsWellFormed | src/app/api/kb/columns/reorder/route.ts:19-29 | reordering tasks or columns keeps the tables well formed |
| Tables.ReorderedIdempotent | src/app/api/kb/tasks/reorder/route.ts:24-34 | sending the same reorder twice has the effect of sending it once |
| Tables.ReorderedDense | src/app/api/kb/tasks/reorder/route.ts:24-34 | a reorder that lists each child id of the parent exactly once leaves its positions exactly 0, ..., n-1 |
| Tables.ReorderByCurrentOrderChangesNothing | src/app/api/kb/columns/reorder/route.ts:19-29 | on dense positions, reordering by the children's current order changes nothing |
| Tables.BoardTasks | src/app/api/kb/board/route.ts:58-64 | the join yields exactly the stored tasks that lie on a column of the board |
| Tables.BoardTasksCount | src/app/api/kb/board/route.ts:58-64 | the join keeps each task of the board as often as it is stored, and no other task |
| Tables.ViewColumns | src/app/api/kb/board/route.ts:49-55 | the reply lists exactly the board's columns in position order, and `tasksByColumn` has a key for each of them |
| Tables.ViewGroupsEachTaskOnce | src/app/api/kb/board/route.ts:66-75 | each list holds only tasks of its own column, in position order; each task of the board appears under its own column as often as stored and under no other |
| Store.GroupTasksByColumn | src/app/api/kb/board/route.ts:66-75 | the grouping loops produce, for every listed column, the tasks of that column in the order listed |
| Store.ReorderRows | src/app/api/kb/tasks/reorder/route.ts:24-34 | placing the listed ids one at a time gives the reorder statement's result |
| Store.KanbanStore.InsertBoard | src/app/api/kb/boot/route.ts:46-49 | the board row is appended with the device and title; the tables stay well formed |
| Store.KanbanStore.InsertColumn | src/app/api/kb/columns/route.ts:52-55 | the column row is appended on its board at the given position; the tables stay well formed |
| Store.KanbanStore.InsertTask | src/app/api/kb/tasks/route.ts:54-57 | the task row is appended in its column with title, description and position; the tables stay well formed |
| Store.KanbanStore.UpdateTaskPositions | src/app/api/kb/tasks/reorder/route.ts:24-34 | the tasks become the reorder of the column's tasks by the listed ids; the tables stay well formed |
| Store.KanbanStore.UpdateColumnPositions | src/app/api/kb/columns/reorder/route.ts:19-29 | the columns become the reorder of the board's columns by the listed ids; the tables stay well formed |
| TasksRoute.StoredDescription | src/app/api/kb/tasks/route.ts:56 | a description is stored iff it is a non-empty string, and then unchanged |
| TasksRoute.Post | src/app/api/kb/tasks/route.ts:15-67 | the replies: 400 for a bad device id, a missing or non-string column id or title; 404 unless the device owns the column; 500 with the error message when a query throws. Otherwise one task is appended above all its siblings and returned. Positions stay dense, and nothing else changes |
| ColumnsRoute.Post | src/app/api/kb/columns/route.ts:18-63 | the replies: 400 for a bad device id or title; 404 'Board not found for this device'; 500 on a thrown query. Otherwise one column is appended above the board's columns and returned. Positions stay dense |
| TasksReorderRoute.Patch | src/app/api/kb/tasks/reorder/route.ts:6-37 | 400 for a bad device id, and 400 for a missing column id or an empty or non-array id list; 404 unless the device owns the column; a failure propagates uncaught. Otherwise the column's tasks are reordered by the list and `{success: true}` is returned |
| ColumnsReorderRoute.Patch | src/app/api/kb/columns/reorder/route.ts:6-32 | 400 for a bad device id or id list; 404 without a board; a failure propagates uncaught. Otherwise the board's columns are reordered by the list, and `{success: true}` is returned |
| BoardRoute.Get | src/app/api/kb/board/route.ts:30-86 | 400 for a bad device id; 404 without a board; 500 on a thrown query. Otherwise it returns the board, its columns by position and its tasks grouped by column; it never changes the tables |
| BootRoute.DefaultColumns | src/app/api/kb/boot/route.ts:63-67 | the seeded columns are 'To Do', 'In Progress' and 'Done' at positions 0, 1 and 2 on the board |
| BootRoute.DefaultColumnsAreDense | src/app/api/kb/boot/route.ts:61-75 | seeding a board without columns gives it exactly the three default columns, with dense positions |
| BootRoute.SeedDefaultColumns | src/app/api/kb/boot/route.ts:69-74 | the three inserts succeed iff none of them throws; after a throw, exactly the inserts before the throwing one remain |
| BootRoute.FindOrCreateBoard | src/app/api/kb/boot/route.ts:37-53 | it uses the device's board when there is one (one query); otherwise it inserts 'My Board' for the device (two queries); it succeeds iff none of those queries throws |
| BootRoute.LoadColumns | src/app/api/kb/boot/route.ts:55-83 | a board with columns is read as is; a board without columns is seeded and re-read (five queries). On success it yields the board's columns in position order, and there is at least one. After a throw in the seeding path, exactly the defaults inserted before it remain |
| BootRoute.SeedAndReload | src/app/api/kb/boot/route.ts:61-83 | for a board found without columns: the three inserts and the second select succeed iff none of them throws; the columns then hold exactly the defaults inserted before any throw, and on success all three, read back in position order |
| BootRoute.SeedCount | src/app/api/kb/boot/route.ts:55-75 | at most three default columns are inserted, and all three exactly when neither the column select nor an insert throws |
| BootRoute.BootQueries | src/app/api/kb/boot/route.ts:37-108 | a boot issues between three and eight queries, and exactly three when the device's board already has columns |
| BootRoute.Boot | src/app/api/kb/boot/route.ts:37-115 | for a known device id: the reply is 500 with the error message exactly when one of the queries the boot issues throws; otherwise it holds the device's board, its columns and grouped tasks. The new boards and columns are stated exactly, for every fault: the board is kept once inserted, and exactly the default columns inserted before a throw remain |
| BootRoute.Get | src/app/api/kb/boot/route.ts:30-115 | 400 for a bad device id, with the tables unchanged; otherwise 500 with the error message exactly when one of the queries the boot issues throws, and else the reply holds the device's board, its columns and grouped tasks. The new boards and columns are stated exactly, for every fault |
| BootRoute.BootTablesWithoutFault | src/app/api/kb/boot/route.ts:37-83 | when none of the queries a boot issues throws, whatever index the fault names, the device gets its board and a board without columns gets all three defaults |
| BootRoute.BootKeepsSeededColumns | src/app/api/kb/boot/route.ts:69-74 | a boot whose k-th seed insert throws keeps the k-1 default columns inserted before it, since no transaction rolls them back |
| BootRoute.BootedTablesUnchanged | src/app/api/kb/boot/route.ts:37-60 | a device whose board already has columns leaves both tables unchanged, whatever throws |
| BootRoute.LoadAndReply | src/app/api/kb/boot/route.ts:55-108 | from the column select on: 500 exactly when one of its one or five column queries or the tasks query throws; otherwise the reply is the board's view, with the default columns seeded when it had none. After a throw, exactly the defaults inserted before it remain |
| BootRoute.ReplyWithTasks | src/app/api/kb/boot/route.ts:84-108 | when the tasks query does not throw, the reply is the board with its columns in position order and each column's tasks grouped under it; otherwise 500 with the error message |
| BootRoute.SeedingKeepsOtherIdsFresh | src/app/api/kb/boot/route.ts:69-74 | seeding with some ids leaves every other unused id unused |
| BootRoute.BootLeavesOtherKeysFresh | src/app/api/kb/boot/route.ts:44-74 | a boot without failures uses none of the keys a later boot would generate, when the two sets of keys are disjoint |
| BootRoute.BootTwice | src/app/api/kb/boot/route.ts:30-115 | after a successful boot the keys a second boot would generate are still unused, and a second boot of the same device that meets no failure replies exactly as the first |
| Kanban.TasksIn | src/app/page.tsx:33-35 | the column filter keeps exactly the column's tasks and is no longer than the board |
| Kanban.TasksInCount | src/app/page.tsx:33-35 | each task of the column appears as often as on the board, and no task of another column appears |
| Kanban.TasksInConcat | src/app/page.tsx:33-35 | the column filter distributes over concatenation |
| Kanban.TasksInAppend | src/app/page.tsx:61-71 | appending a task adds it to its own column's list only |
| Kanban.RemoveTask | src/app/page.tsx:74-80 | deleting keeps exactly the tasks with a different id and never lengthens the board |
| Kanban.RemoveTaskCount | src/app/page.tsx:74-80 | each task with a different id is kept as often as before, and none with the id |
| Kanban.RemoveTaskConcat | src/app/page.tsx:74-80 | deleting distributes over concatenation |
| Kanban.RemoveAbsentTask | src/app/page.tsx:74-80 | deleting an id no task has changes nothing |
| Kanban.RemoveTaskIdempotent | src/app/page.tsx:74-80 | deleting twice is deleting once |
| Kanban.RemoveKeepsIdsDistinct | src/components/Column.tsx:74-78 | deleting keeps task ids distinct |
| Kanban.RemoveTaskKeepsWellFormed | src/app/page.tsx:74-80 | deleting keeps every task in an existing column and all ids distinct |
| Kanban.MoveTask | src/app/page.tsx:47-54 | the move rewrites the column of the tasks with the id and leaves every other task, and every other field, unchanged |
| Kanban.MoveToOwnColumn | src/components/Board.tsx:93 | moving a task to the column it is in changes nothing |
| Kanban.MoveTaskIdempotent | src/app/page.tsx:47-54 | moving twice to the same column is moving once |
| Kanban.MovedTaskIsInTarget | src/components/Board.tsx:93-102 | after a move the task is listed under its target column |
| Kanban.MoveTaskKeepsWellFormed | src/components/Board.tsx:55-66 | moving to an existing column keeps the board well formed |
| Kanban.MoveToUnknownColumn | src/app/page.tsx:39-54 | moving a task to an id that is no column leaves a task that references a missing column |
| Kanban.FindTask | src/components/Board.tsx:36-42 | the search finds nothing iff no task has the id, and otherwise finds the first task with that id |
| Kanban.AppendAtCountKeepsDense | src/app/page.tsx:57-72 | appending with the column's task count as position keeps each column's positions dense |
| Kanban.AppendKeepsWellFormed | src/components/Column.tsx:27-39 | appending a task with a fresh id into an existing column keeps the board well formed |
| Kanban.InitialColumns | src/lib/initial-data.ts:42-46 | the seed columns have positions 0, 1, 2 and distinct ids |
| Kanban.InitialRefsValid | src/lib/initial-data.ts:33-47 | every seed task lies in a seed column |
| Kanban.InitialTodoTasks | src/lib/initial-data.ts:35-39 | the 'todo' column holds the first two seeded tasks, in order |
| Kanban.InitialInProgressTasks | src/lib/initial-data.ts:35-39 | the 'in-progress' column holds the third seeded task alone |
| Kanban.InitialOtherTasks | src/lib/initial-data.ts:35-39 | every other column holds no seeded task |
| Kanban.InitialDensePerColumn | src/lib/initial-data.ts:35-39 | every column's seed task positions are dense |
| Page.Home.constructor | src/app/page.tsx:12 | the board starts as the seed data |
| Page.Home.HandleDragEnd | src/app/page.tsx:37-55 | the task moves to the column named by the drop target, unless nothing is under the pointer, the task is unknown, or it is already there. Well-formedness is kept when the target is a column, and a move onto a target that is not a column breaks it |
| Page.Home.HandleAddTask | src/app/page.tsx:57-72 | a cancelled or empty prompt adds nothing; otherwise the task is appended with its column's task count as position. Positions stay dense, and a fresh id into an existing column keeps the board well formed |
| Page.Home.HandleDeleteTask | src/app/page.tsx:74-81 | a confirmed delete removes the tasks with the id and keeps the board well formed; an unconfirmed one changes nothing |
| BoardComponent.DropTarget | src/components/Board.tsx:86-91 | the target is the column of the task dropped on, or else the id dropped on |
| BoardComponent.DropTargetIsAColumn | src/components/Board.tsx:86-91 | on a well-formed board, dropping over a task or a column targets an existing column |
| BoardComponent.BoardState.constructor | src/components/Board.tsx:25-26 | no task is being dragged at first |
| BoardComponent.BoardState.HandleDragStart | src/components/Board.tsx:36-42 | the dragged task is remembered when it exists, and the board is unchanged |
| BoardComponent.BoardState.HandleDragOver | src/components/Board.tsx:44-67 | the task moves only when hovering over an existing column other than its own, keeping the board well formed |
| BoardComponent.BoardState.HandleDragEnd | src/components/Board.tsx:69-105 | every exit clears the dragged task; the task moves to the drop target unless it is already there; dropping over a task or a column keeps the board well formed |
| ColumnComponent.TrimStart | src/components/Column.tsx:28 | the result is a suffix of the input |
| ColumnComponent.TrimStartRemovesTrimmable | src/components/Column.tsx:28 | every character removed from the front is white space or a line terminator |
| ColumnComponent.TrimStartKeepsUntrimmableHead | src/components/Column.tsx:28 | what is kept is empty or starts with a character that is neither |
| ColumnComponent.TrimEnd | src/components/Column.tsx:28 | the result is a prefix of the input |
| ColumnComponent.TrimEndRemovesTrimmable | src/components/Column.tsx:28 | every character removed from the back is white space or a line terminator |
| ColumnComponent.TrimEndKeepsUntrimmableLast | src/components/Column.tsx:28 | what is kept is empty or ends with a character that is neither |
| ColumnComponent.TrimIsTrimmedSlice | src/components/Column.tsx:28 | the trimmed string is a slice of the input with only white space around it, and neither starts nor ends with white space |
| ColumnComponent.TrimEmptyIffAllTrimmable | src/components/Column.tsx:28 | the input trims to nothing iff it is all white space |
| ColumnComponent.TrimIdempotent | src/components/Column.tsx:28-31 | trimming twice is trimming once |
| ColumnComponent.ColumnState.constructor | src/components/Column.tsx:19-21 | the input starts closed and empty |
| ColumnComponent.ColumnState.HandleAddTask | src/components/Column.tsx:27-44 | input that trims to nothing changes nothing. Otherwise the trimmed title is appended in this column, at the column's task count, and the input is cleared and closed. Positions stay dense |
| ColumnComponent.ColumnState.HandleKeyDown | src/components/Column.tsx:100-108 | Enter adds the task as above, Escape closes and clears the input, any other key changes nothing |
| ColumnComponent.ColumnState.Cancel | src/components/Column.tsx:117-121 | the input is closed and cleared, the board unchanged |
| ColumnComponent.ColumnState.OpenAddForm | src/components/Column.tsx:130 | the input opens, nothing else changes |
| ColumnComponent.ColumnState.Type | src/components/Column.tsx:99 | the input holds the typed value, nothing else changes |
| ColumnComponent.ColumnState.DeleteCard | src/components/Column.tsx:74-78 | the tasks with the card's id are removed and the board stays well formed |
| SupabaseTasks.ErrorText | src/hooks/useSupabaseTasks.ts:69 | the error shown is the thrown message, or the fallback when that is empty |
| SupabaseTasks.RecordRoundTrip | src/hooks/useSupabaseTasks.ts:59-64 | a row converted to a client task and back is unchanged, and so is a task converted to a row and back |
| SupabaseTasks.ToTasks | src/hooks/useSupabaseTasks.ts:59-64 | the fetched rows map one to one onto client tasks, `column_id` becoming `columnId`; no data gives no tasks |
| SupabaseTasks.ToColumns | src/hooks/useSupabaseTasks.ts:53-57 | the fetched rows map one to one onto client columns; no data gives no columns |
| SupabaseTasks.ToTasksKeepsIds | src/hooks/useSupabaseTasks.ts:59-64 | rows with distinct ids give tasks with distinct ids |
| SupabaseTasks.PatchTasks | src/hooks/useSupabaseTasks.ts:131-138 | the tasks with the id get the patch's defined fields, and all others stay |
| SupabaseTasks.EmptyPatch | src/hooks/useSupabaseTasks.ts:131-138 | an update that defines no field changes no task |
| SupabaseTasks.ColumnPatchIsMove | src/hooks/useSupabaseTasks.ts:116-138 | an update that sets only the column is the drag-and-drop move |
| SupabaseTasks.DbUpdates | src/hooks/useSupabaseTasks.ts:118-121 | the update object has a key for exactly the defined fields among title, column and position (the column under `column_id`), each with the field's value |
| SupabaseTasks.UpdateKeepsRowAndTaskInStep | src/hooks/useSupabaseTasks.ts:118-138 | for an update that does not set the id, the hosted row after the update and the local task after the merge agree |
| SupabaseTasks.PatchedIdIsNotSent | src/hooks/useSupabaseTasks.ts:118-138 | an update that sets a new id renames the local task while the hosted row keeps its id |
| SupabaseTasks.TasksHook.constructor | src/hooks/useSupabaseTasks.ts:23-25 | the board starts empty, loading, with no error |
| SupabaseTasks.TasksHook.FetchData | src/hooks/useSupabaseTasks.ts:31-73 | loading ends in every case. On success the board becomes the mapped columns and tasks and the error is cleared. If either query fails, the board is kept and the error set ('Failed to load data' by default) |
| SupabaseTasks.TasksHook.AddTask | src/hooks/useSupabaseTasks.ts:79-110 | a returned row is appended as a client task; a failure keeps the board and sets the error ('Failed to add task' by default) |
| SupabaseTasks.TasksHook.BuildDbUpdates | src/hooks/useSupabaseTasks.ts:118-121 | the object built field by field is the update object |
| SupabaseTasks.TasksHook.UpdateTask | src/hooks/useSupabaseTasks.ts:116-143 | the update object is sent. On success the tasks with the id get the patch; on failure the board is kept and the error set ('Failed to update task' by default) |
| SupabaseTasks.TasksHook.DeleteTask | src/hooks/useSupabaseTasks.ts:149-167 | on success the tasks with the id are removed; on failure the board is kept and the error set ('Failed to delete task' by default) |

## Left out

**Server handlers**
- Concurrency: each handler's queries run one after another against one store. Two requests that read the maximum position at the same time, and would then insert the same position, are not modelled.
- Malformed request bodies: `req.json()` throwing is not modelled. Each handler receives the body's fields as JSON values.
- TasksRoute.Post: requires the description to be a string or a falsy value. A truthy non-string description, which Postgres would coerce or reject, is not modelled.
- TasksRoute.Post, TasksReorderRoute.Patch, ColumnsReorderRoute.Patch: ids from the request body are compared with stored ids as exact text, so they are taken to arrive in canonical lower-case hyphenated form. Postgres's `uuid` input also accepts upper case, braces and the unhyphenated form; an id written that way is modelled as naming no row.
- UUID parameters: the Postgres cast of a non-UUID id in a query parameter throws. The model has such an id match no row, and a thrown query is modelled only through `fault`.
- TasksReorderRoute.Patch: requires the ids in `ordered_ids` to be pairwise distinct. With duplicates, the row an `UPDATE ... FROM` takes is left unspecified by Postgres.
- ColumnsReorderRoute.Patch: requires the ids in `ordered_ids` to be pairwise distinct, for the same reason.
- Store.KanbanStore.InsertBoard: requires that the device has no board yet. This keeps one board per device, which the schema is taken to enforce; `db.ts` and the schema are not part of this model.
- Row columns other than ids, keys, titles, descriptions and positions are not modelled: timestamps, colours and task limits.
- `ORDER BY position` with ties: Postgres leaves the order of equal positions open. The model keeps table order for them, using a stable sort.
- `rows[0]` of an unordered select is modelled as the first matching row in table order.
- `console.log` and `console.error` are not modelled.

**Client**
- Validations.ColumnFormIssues: the task limit is modelled as an integer, but the source accepts any JavaScript number between 1 and 100, including fractions.
- `page.tsx`: persistence in `localStorage` and the `mounted` flag are not modelled.
- Browser `prompt` and `confirm`, `Date.now()` and `uuidv4()` are not modelled; their results are parameters.
- React's batching of state updates (`prev =>` against the captured `boardData`) is not modelled. Each handler reads and writes one current board.
- `Column.tsx`: its `tasks` prop is modelled as the board's filter by this column, which is how `Board.tsx` supplies it.
- Rendering, styling, sensors and animations of the components are not modelled.
- `useSupabaseTasks.ts`: the realtime subscription and its effect (lines 169-205) are not modelled.
- `useSupabaseTasks.ts`: the hosted tables are not modelled; each query's outcome is a parameter.
- SupabaseTasks.TasksHook.AddTask: the insert payload is not modelled; the row the insert returns is a parameter.
- SupabaseTasks.PatchTasks: an update field given explicitly as `undefined` is treated as absent. JavaScript's spread would copy it, so this is not modelled.
- Not part of this model: `db.ts`, `kbApi.ts`, the health route, the per-id task and column routes, the type files, the date utilities and the rendering-only components.
