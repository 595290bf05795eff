# ia-cartorio construction dashboard — a Dafny model

This project models the state logic of a single-page dashboard for the
infrastructure works of a notary's office. The dashboard has five parts:

- **Floor plan.** Technicians place network, phone, VGA/HDMI video,
  camera (CFTV and CFTV 360) and rack points on an interactive floor plan. They filter the points by type,
  drag them, zoom, and add plan pages.
- **Point details.** Each point has a checklist. Its status is derived from
  how many checklist items are ticked. Notes and photos are edited in the
  point's dialog.
- **Project timeline.** Each of the five project phases shows its counts
  per status, its progress in percent, and its own status.
- **Cost centre.** This covers the cost ledger, its total, and the
  cumulative cost trend in date order. It also shows the budget bar, whose
  colour depends on the share spent, and exports a `;`-separated report.
- **Kanban board.** The board has three columns ("todo", "inprogress",
  "done"). Tasks move between columns by drag and drop and are added by a
  form.

Each source file of the core is one Dafny module:

| module | source | form |
|---|---|---|
| `Types` | `types.ts` | datatypes |
| `Constants` | `constants.tsx` | constant values, `CreateDefaultPoint` |
| `App` | `App.tsx` | class `AppState`, with the state and handlers of the top-level component |
| `Board` | `App.tsx` | the kanban column map and task list as values; the single-ownership invariant |
| `KanbanBoard` | `components/KanbanBoard.tsx` | column view; classes `DragController` and `AddTaskForm` |
| `TaskDetails` | `components/TaskDetailsModal.tsx` | class `TaskDetailsForm` |
| `PointDetails` | `components/PointDetailsModal.tsx` | checklist status derivation; class `PointDetailsForm` |
| `ProjectStatus` | `components/ProjectStatus.tsx` | per-phase statistics, with counting loops |
| `Dashboard` | `components/Dashboard.tsx` | cost sums, sort, trend loop, budget, CSV; class `CostForm` |
| `FloorPlan` | `components/FloorPlan.tsx` | class `FloorPlanView`, with filters, zoom, drag, plan pages and background |
| `Text`, `Collections` | — | `split`/`join`, decimal rendering, `splice`, `filter` |

## Representation choices

- **Money is in integer cents.** The amount typed into the cost form goes
  through a `parseAmount` parameter, which stands for `parseFloat`.
- **Percentages are exact reals.** This covers budget share and phase
  progress. So the `progress === 100` test is exact, and it holds exactly
  when every relevant point is completed.
- **The zoom level is a real.** Its step is 0.2 and it is bounded by
  [0.5, 3].
- **Generated values are parameters.** `Date.now()` ids, photo URLs and
  the date parse used by the sort all come in as parameters. The date parse
  is the `dateKey` function.
- **React state becomes class fields.** Each handler is a method stating
  the whole new state. A functional `setX(prev => …)` is modelled as a
  direct assignment, because the handlers here read no state another
  handler has changed in the same event.

## Source behaviour the model keeps

- **A drag dropped outside every column is never cleared.** The board has
  no `dragend` handler. So when a card is dropped outside every column,
  `dragItem` and `draggedTaskId` stay set until the next drop on a column.
  `DragController` has no cancel operation.
- **A drop on a card inserts at index 0.** Each card's wrapper `<div>` has
  that card as its only child. So `children.indexOf(card)` is always 0
  (components/KanbanBoard.tsx:123-134, 179-182), and a drop on any card
  inserts the task at the top of the column. `DropIndex` returns exactly
  that.
- **A same-column drop at the end passes one past the end.** The index
  passed equals the list length before removal, which is one past the end
  of the shortened list. `splice` clamps it, and so does
  `Collections.InsertAt`. So the move is defined for every destination
  index rather than only for indexes up to the list length.
- **Edit and delete are never wired.** `App` never renders
  `TaskDetailsModal` and never passes task deletion or edit handlers. The
  edit dialog is modelled on its own (`TaskDetails`), and
  `TaskDetails.EditKeepsBoardInvariant` shows that putting its result
  back would keep the board invariant.
- **The derived point status is never `Alert`.** Toggling a checklist
  item therefore overwrites an `Alert` status. An `Alert` point blocks its
  phase from completing.
- **A non-positive budget shows 0% and the normal colour.**
- **The security layer switch is not reset when another page is
  selected.** It is only disabled there, so coming back to page 1 shows
  the layer as it was left.

## Model

| member | source | states |
|---|---|---|
| `Constants.UtpMaterial` | constants.tsx:29 | network/phone material list: one cable of the given length, one keystone, one RJ45 plug |
| `Constants.CreateDefaultPoint` | constants.tsx:31-56 | a new point is Pending, with no notes or photos, in room "Não definido", named after its type; it has four checklist items, only the rack's first ("Montagem da Estrutura") pre-ticked; network and phone points get the UTP kit |
| `Constants.CameraPointsDifferOnlyInCamera` | constants.tsx:44-49 | the two camera types share checklist and cable and differ only in the camera model |
| `Constants.ProjectPhasesShape` | constants.tsx:68-74 | five phases; only the last (final tests) lists no point types, which means all points |
| `Constants.InitialKanbanColumnsShape` | constants.tsx:85-101 | exactly the three stages, each keyed by its own id and empty |
| `Text.Split` | components/Dashboard.tsx:82 | `split` always yields at least one piece and no piece holds the separator |
| `Text.JoinSplit` | components/Dashboard.tsx:82-86 | joining the pieces of a split gives the string back |
| `Text.SplitJoin` | components/Dashboard.tsx:86-89 | splitting the join of separator-free pieces gives the pieces back |
| `Text.SplitPrefix` | components/Dashboard.tsx:82 | a separator-free prefix stays glued to the first piece |
| `Text.SplitKeepsAbsence` | components/Dashboard.tsx:82 | a character absent from the string is absent from every piece |
| `Text.NatToDecimal` | components/FloorPlan.tsx:160-163 | the template rendering of a number is a non-empty digit string without a leading zero |
| `Text.DecimalRoundTrip` | components/FloorPlan.tsx:160-163 | reading back the rendering of a number gives the number |
| `Text.NatToDecimalInjective` | components/FloorPlan.tsx:160-163 | distinct numbers render differently |
| `Text.PrefixedDecimalInjective` | components/FloorPlan.tsx:162-163 | `plan${n}` and `P${n}` are distinct for distinct `n` |
| `Collections.RemoveAt` | App.tsx:123 | `splice(i, 1)` drops exactly the element at `i`; the others keep their order and close up |
| `Collections.RemoveAtMultiset` | App.tsx:123 | what `splice(i, 1)` removes is one occurrence of the element at `i` and nothing else |
| `Collections.InsertAt` | App.tsx:124 | `splice(i, 0, x)` puts `x` at `i`, or at the end when `i` is past it, shifting the rest |
| `Collections.InsertAtMultiset` | App.tsx:124 | what `splice(i, 0, x)` adds is one occurrence of `x` and nothing else |
| `Collections.RemoveInsertSameIndex` | App.tsx:123-124 | splicing an element out and back in at the same place restores the list |
| `Collections.DistinctCount` | App.tsx:105-109 | in a list without repeats every element occurs at most once |
| `Collections.RepeatCount` | App.tsx:105-109 | an element at two positions occurs at least twice |
| `Collections.Filter` | App.tsx:44 | `filter` keeps exactly the elements that pass, and no more elements than it got |
| `Collections.KeptPositions` | App.tsx:44 | the positions `filter` keeps are positions of the input, one per kept element |
| `Collections.Shifted` | App.tsx:44 | every position moves one place on |
| `Collections.FilterAtKeptPositions` | App.tsx:44 | the filtered list is the input read at the kept positions, which strictly increase: the order is kept |
| `Collections.SubsequenceSkip` | App.tsx:44 | a first element that fails the filter shifts the kept positions one place on |
| `Collections.SubsequenceTake` | App.tsx:44 | a first element that passes the filter is kept at position 0, ahead of the rest |
| `Collections.FilterCount` | App.tsx:44 | `filter` keeps every occurrence of a passing value and no occurrence of a failing one |
| `Collections.FilterSelects` | App.tsx:44 | `filter` in full: a subsequence of the input holding each passing value exactly as often as the input, and no failing value |
| `Collections.FilterAppend` | components/FloorPlan.tsx:171 | filtering distributes over concatenation, keeping order |
| `Collections.FilterKeepsAll` | components/FloorPlan.tsx:223 | a filter every element passes returns the list unchanged |
| `Collections.FilterKeepsNone` | components/FloorPlan.tsx:224 | a filter no element passes returns the empty list |
| `App.NewPoint` | App.tsx:32-40 | an added point is the default template of its type, with the given id and position |
| `App.FindPoint` | App.tsx:28 | `find` by id returns nothing exactly when no point has the id, and otherwise the first point with it |
| `App.UpdateKeepsLookupPosition` | App.tsx:50-57 | after an update by id, a lookup of the id finds the rewritten version of the first matching point |
| `App.UpdateKeepsOtherLookups` | App.tsx:50-52 | an update by id leaves the lookup of every other id as it was |
| `App.FoundAfterUpdate` | App.tsx:50-57 | the lookup after an update finds a point exactly when the one before did, and finds the updated first match |
| `App.WithoutPoint` | App.tsx:42-47 | deleting removes every point with the id and keeps every other point, in order and with its multiplicity |
| `App.AddThenDeletePoint` | App.tsx:32-47 | deleting a point just added under a fresh id restores the list |
| `App.WithoutEntry` | App.tsx:91-98 | deleting removes every cost entry with the id and keeps every other entry, in order and with its multiplicity |
| `App.AddThenDeleteEntry` | App.tsx:81-98 | deleting an entry just added under a fresh id restores the ledger |
| `App.AppState.constructor` | App.tsx:15-19 | no points, the initial finances, an empty board with the three stages, no selection; the board invariant holds |
| `App.AppState.SelectPoint` | App.tsx:23-30 | the selection is the first point with the id, or nothing |
| `App.AppState.AddPoint` | App.tsx:32-40 | the default point of the type is appended; nothing else changes |
| `App.AppState.DeletePoint` | App.tsx:42-47 | the points without that id remain and the details dialog closes |
| `App.AppState.UpdatePointStatus` | App.tsx:49-58 | every point with the id gets the new status and checklist, the others are untouched, and the selection becomes the updated first match, or nothing when the id is unknown |
| `App.AppState.UpdatePointDetails` | App.tsx:60-71 | every point with the id gets the new notes and photos; the selection becomes the updated first match, and is kept when the id is unknown |
| `App.AppState.UpdatePointPosition` | App.tsx:73-79 | every point with the id moves to the new coordinates; nothing else changes |
| `App.AppState.AddCostEntry` | App.tsx:81-89 | the entry with its new id is appended to the ledger; budget, materials and labour are unchanged |
| `App.AppState.DeleteCostEntry` | App.tsx:91-98 | every ledger entry with the id goes; the rest of the financial data is unchanged |
| `App.AppState.AddTask` | App.tsx:100-114 | the new task joins the list with column "todo", its id goes at the end of the "todo" column, and the single-ownership invariant is kept |
| `App.AppState.UpdateTaskStatus` | App.tsx:116-137 | a drop at its own place changes nothing; otherwise the columns become the splice move and the moved task is retagged with the destination; the invariant is kept |
| `Board.TaskIds` | App.tsx:105-109 | the ids of the task list, position by position |
| `Board.ExactlyOneColumn` | App.tsx:116-137 | on a valid board a task's id is listed under a column exactly when that is the column the task names |
| `Board.ColumnsDistinct` | App.tsx:116-137 | on a valid board no column lists an id twice |
| `Board.ListedIdsOwned` | App.tsx:116-137 | every listed id belongs to a task that names the listing column |
| `Board.MovedColumns` | App.tsx:121-130 | the move changes only the source and destination columns and keeps titles; across two columns the source loses the id at the index and the destination gains it at the clamped index |
| `Board.MoveKeepsBoardIds` | App.tsx:121-130 | a move neither adds nor drops ids: the board lists the same multiset |
| `Board.CountByColumn` | App.tsx:121-130 | the count of an id on the board is the sum of its counts per column |
| `Board.MoveKeepsIdMultiset` | App.tsx:121-130 | any column map that differs from the old one by such a splice lists the same multiset of ids |
| `Board.Retagged` | App.tsx:133-136 | only tasks with the moved id change, and only their column; ids and order are kept |
| `Board.MoveSameIndexIsIdentity` | App.tsx:117-118 | a move to the same column and index changes nothing, so the early return loses nothing |
| `Board.SameColumnRetagIsIdentity` | App.tsx:133-136 | a move within one column leaves the task list as it is |
| `Board.OnlyColumn` | App.tsx:121-130 | an id listed at most once, under `d`, is listed under `d` only |
| `Board.MoveLandsAt` | App.tsx:121-124 | the moved id lands in the destination at the requested index, or at the end when that index is past the end |
| `Board.MoveKeepsOthers` | App.tsx:121-124 | every other id stays in the column that listed it |
| `Board.MoveListsTaskOnce` | App.tsx:116-137 | after a move on a valid board the id is listed under the destination column and no other |
| `Board.MovePreservesInvariant` | App.tsx:116-137 | a move keeps single ownership: unique ids, the same ids on the board as in the list, each under the column it names |
| `Board.ColumnsWithNewTask` | App.tsx:105-113 | the new id is appended to "todo"; the other columns and the title are unchanged |
| `Board.NewKanbanTask` | App.tsx:101-104 | the new task has the form's fields, the given id and column "todo" |
| `Board.AddTaskPreservesInvariant` | App.tsx:100-114 | adding under a fresh id keeps single ownership |
| `Board.InitialBoardValid` | constants.tsx:83-101 | the empty initial board satisfies the invariant |
| `Board.RemoveExample` | App.tsx:123 | `splice(1, 1)` on [A, B, C, D] takes out B and leaves [A, C, D] |
| `Board.SameColumnReorderExample` | App.tsx:121-124 | for any ids A, B, C, D in a column [A, B, C, D], moving B to index 3, or to the end, gives [A, C, D, B] |
| `Board.SameColumnDropAtEnd` | App.tsx:121-124 | inside one column, a drop index at or past the end of the shortened list puts the moved id last, after the others in their order |
| `Board.CrossColumnExample` | App.tsx:121-124 | with todo [A, B] and done [X], moving B to index 0 of done leaves todo [A] and done [B, X], and the other column unchanged |
| `KanbanBoard.LookupTask` | components/KanbanBoard.tsx:144 | `new Map(...).get(id)` is empty exactly when no task has the id, and otherwise it is the last task with it |
| `KanbanBoard.ColumnTasks` | components/KanbanBoard.tsx:281 | a column view is, in list order, the looked-up task of each id that resolves, and only the ids with no task are dropped; it lists only tasks from the list, no more than the column holds |
| `KanbanBoard.ResolvedColumnTasks` | components/KanbanBoard.tsx:281 | when every id resolves, the view has one task per id, in list order |
| `KanbanBoard.ColumnViewOfValidBoard` | components/KanbanBoard.tsx:281 | on a valid board a column shows one task per listed id, in order, each naming that column |
| `KanbanBoard.DropIndex` | components/KanbanBoard.tsx:175-182 | a drop on a card gives index 0 (its position in its one-child wrapper); elsewhere the end of the destination list |
| `KanbanBoard.DragController.constructor` | components/KanbanBoard.tsx:145-147 | no drag item, no dragged card, no highlighted column |
| `KanbanBoard.DragController.DragStart` | components/KanbanBoard.tsx:150-155 | records the task, its column and index, and marks the card as dragged |
| `KanbanBoard.DragController.DragEnter` | components/KanbanBoard.tsx:162-165 | highlights the entered column |
| `KanbanBoard.DragController.DragLeave` | components/KanbanBoard.tsx:167-169 | clears the highlight |
| `KanbanBoard.DragController.Drop` | components/KanbanBoard.tsx:171-196 | forwards the recorded drag as a move to the drop column and index, forwards nothing without one, and always ends idle |
| `KanbanBoard.AddTaskForm.constructor` | components/KanbanBoard.tsx:23-26 | empty fields, priority "Média" |
| `KanbanBoard.AddTaskForm.Submit` | components/KanbanBoard.tsx:28-37 | with title, assignee and due date filled in, emits the task and resets the form; otherwise emits nothing and keeps it |
| `TaskDetails.EditedTask` | components/TaskDetailsModal.tsx:25-36 | a save happens exactly when title, assignee and due date are filled; it keeps the id and column and takes the four form values |
| `TaskDetails.UneditedSaveIsIdentity` | components/TaskDetailsModal.tsx:18-36 | saving an untouched form gives the task back |
| `TaskDetails.EditKeepsBoardInvariant` | components/TaskDetailsModal.tsx:28-34 | putting a saved edit back in place keeps single ownership |
| `TaskDetails.TaskDetailsForm.constructor` | components/TaskDetailsModal.tsx:13-16 | the fields show the task's values |
| `TaskDetails.TaskDetailsForm.SyncFrom` | components/TaskDetailsModal.tsx:18-23 | the fields are re-seeded from the new task |
| `TaskDetails.TaskDetailsForm.Submit` | components/TaskDetailsModal.tsx:25-36 | the saved record is the validated edit of the task; the form is unchanged |
| `PointDetails.DoneCount` | components/PointDetailsModal.tsx:36-37 | the ticked count is at most the number of items |
| `PointDetails.AllDoneCount` | components/PointDetailsModal.tsx:36 | `every` item ticked exactly when the count is the length |
| `PointDetails.SomeDoneCount` | components/PointDetailsModal.tsx:37 | `some` item ticked exactly when the count is positive |
| `PointDetails.DerivedStatusByCount` | components/PointDetailsModal.tsx:36-46 | the derived status is never Alert; Completed exactly when all are ticked, InProgress exactly when some but not all are, Pending exactly when none of a non-empty list is |
| `PointDetails.Toggled` | components/PointDetailsModal.tsx:32-35 | only item `i` changes, and only its tick |
| `PointDetails.ToggleTwice` | components/PointDetailsModal.tsx:32-35 | toggling an item twice restores the checklist |
| `PointDetails.ToggledDoneCount` | components/PointDetailsModal.tsx:32-35 | a toggle moves the ticked count by exactly one, up when the item was open |
| `PointDetails.ToggleCompletes` | components/PointDetailsModal.tsx:31-49 | ticking the last open item completes the point; unticking one of a completed list of two or more puts it back in progress |
| `PointDetails.PointDetailsForm.constructor` | components/PointDetailsModal.tsx:21-23 | the local checklist, notes and photos are the point's |
| `PointDetails.PointDetailsForm.SyncFrom` | components/PointDetailsModal.tsx:25-29 | the local copy is re-seeded from the new point |
| `PointDetails.PointDetailsForm.ToggleChecklist` | components/PointDetailsModal.tsx:31-49 | flips one item and reports the point's id, the derived status and the new checklist |
| `PointDetails.PointDetailsForm.AddPhoto` | components/PointDetailsModal.tsx:51-53 | one more photo, at the end |
| `PointDetails.PointDetailsForm.SaveAndClose` | components/PointDetailsModal.tsx:55-58 | reports the point's id with the current notes and photos |
| `ProjectStatus.RelevantPoints` | components/ProjectStatus.tsx:15-17 | a phase without types concerns every point; otherwise exactly the points of a listed type, in order and each as often as in the list |
| `ProjectStatus.CountStatus` | components/ProjectStatus.tsx:20-31 | a status count is at most the number of points |
| `ProjectStatus.CountStatusAll` | components/ProjectStatus.tsx:33-38 | the count is the total exactly when every point has the status |
| `ProjectStatus.CountStatusSome` | components/ProjectStatus.tsx:39-41 | the count is positive exactly when some point has the status |
| `ProjectStatus.CountsCoverAll` | components/ProjectStatus.tsx:20-31 | the four counts add up to the number of points |
| `ProjectStatus.TallyStatuses` | components/ProjectStatus.tsx:20-31 | the `forEach` loop computes the four counts, which add up to the number of points |
| `ProjectStatus.Progress` | components/ProjectStatus.tsx:33 | progress is completed / total * 100 (stated as progress * total = 100 * completed) for a positive total and 0 for no points; it lies in [0, 100] and is 100 exactly when there are points and all are completed |
| `ProjectStatus.PhaseStatOf` | components/ProjectStatus.tsx:13-53 | a phase record carries the phase name, its point total, its counts and the progress completed / total * 100 that the bar displays, within [0, 100] |
| `ProjectStatus.PhaseCountsSum` | components/ProjectStatus.tsx:19-31 | a phase's counts add up to its total |
| `ProjectStatus.PhaseCompletedIff` | components/ProjectStatus.tsx:35-38 | a phase is completed exactly when it has points and all are completed, and it then shows 100% |
| `ProjectStatus.PhaseInProgressIff` | components/ProjectStatus.tsx:39-45 | a phase that is not completed is in progress exactly when one of its points is started or done, which is exactly when its in-progress and completed counts are not both zero, and pending exactly when both are zero |
| `ProjectStatus.EmptyPhasePending` | components/ProjectStatus.tsx:33-45 | a phase without points shows 0% and is pending |
| `ProjectStatus.AlertBlocksCompletion` | components/ProjectStatus.tsx:35-38 | one point in Alert keeps its phase from completing |
| `ProjectStatus.ComputePhaseStat` | components/ProjectStatus.tsx:13-53 | the per-phase body computes the phase record |
| `ProjectStatus.PhaseStats` | components/ProjectStatus.tsx:12-55 | one record per phase, in phase order, each with its phase's name |
| `Dashboard.SumConcat` | components/Dashboard.tsx:32 | the sum of a concatenation is the sum of the parts |
| `Dashboard.SumWithout` | components/Dashboard.tsx:32 | taking one entry out lowers the sum by its amount |
| `Dashboard.MultisetWithout` | components/Dashboard.tsx:35 | taking one entry out removes exactly it from the multiset |
| `Dashboard.SumPermutation` | components/Dashboard.tsx:32-38 | the sum does not depend on the order of the entries |
| `Dashboard.SumPositive` | components/Dashboard.tsx:65 | positive amounts sum to at least one per entry |
| `Dashboard.TotalCost` | components/Dashboard.tsx:33 | without entries the total is materials plus labour |
| `Dashboard.InsertByDate` | components/Dashboard.tsx:35 | inserting adds exactly that entry |
| `Dashboard.InsertKeepsSorted` | components/Dashboard.tsx:35 | inserting into a date-ordered list keeps it ordered |
| `Dashboard.SortByDate` | components/Dashboard.tsx:35 | the sorted copy is a permutation of the ledger, ordered by date |
| `Dashboard.InsertStable` | components/Dashboard.tsx:35 | inserting into a date-ordered list puts the entry after those of its own day and keeps every day's entries in order |
| `Dashboard.SortByDateStable` | components/Dashboard.tsx:35 | the sort is stable: the entries of any one day keep their ledger order, so the running cost of same-day entries follows the ledger |
| `Dashboard.CostTrend` | components/Dashboard.tsx:36-43 | the loop gives one point per entry, each the base cost plus the amounts up to and including that entry |
| `Dashboard.TrendEndsAtTotal` | components/Dashboard.tsx:33-43 | the last trend point is the total cost |
| `Dashboard.TrendIncreasing` | components/Dashboard.tsx:36-43 | with positive amounts the running cost strictly increases |
| `Dashboard.BudgetPercentage` | components/Dashboard.tsx:45 | with a positive budget the percentage times the budget is 100 times the total; otherwise it is 0 |
| `Dashboard.BudgetStatusOf` | components/Dashboard.tsx:54-58 | remaining plus total is the budget |
| `Dashboard.PercentAbove` | components/Dashboard.tsx:47-48 | the percentage passes a threshold exactly when 100 times the total passes threshold times the budget |
| `Dashboard.BarColorByAmounts` | components/Dashboard.tsx:45-48 | alert exactly when a positive budget is more than 90% spent; warning when more than 75% but not 90%; normal otherwise |
| `Dashboard.CostSummary` | components/Dashboard.tsx:31-60 | the memo gives the ledger sum, the total, the date-ordered running cost ending at the total, and the budget status |
| `Dashboard.CostForm.constructor` | components/Dashboard.tsx:26-29 | empty fields, category "Outros" |
| `Dashboard.CostForm.Submit` | components/Dashboard.tsx:62-72 | with a date, a description and a positive parsed amount, emits the entry and resets the form; otherwise emits nothing and keeps it |
| `Dashboard.FormatIsoDate` | components/Dashboard.tsx:82-83 | `Y-M-D` is written `D/M/Y` |
| `Dashboard.EscapeQuotes` | components/Dashboard.tsx:84 | doubling quotes never shortens the text |
| `Dashboard.QuoteField` | components/Dashboard.tsx:84 | the description field is wrapped in quotes |
| `Dashboard.UnescapeEscape` | components/Dashboard.tsx:84 | undoing the quote doubling gives the text back |
| `Dashboard.QuoteRoundTrip` | components/Dashboard.tsx:84 | a reader that unquotes the field recovers the description exactly |
| `Dashboard.TwoDigits` | components/Dashboard.tsx:85 | the two decimals of an amount read back as the number of cents |
| `Dashboard.UnsignedRoundTrip` | components/Dashboard.tsx:85 | a non-negative formatted amount reads back as itself |
| `Dashboard.FormatNonNegative` | components/Dashboard.tsx:85 | a non-negative amount is written as its whole part, a comma and two decimals, and does not start with '-' |
| `Dashboard.FormatNegative` | components/Dashboard.tsx:85 | a negative amount is written as '-' followed by the rendering of its magnitude |
| `Dashboard.AmountRoundTrip` | components/Dashboard.tsx:85 | `toFixed(2)` with a decimal comma reads back as the amount, sign included |
| `Dashboard.CsvFields` | components/Dashboard.tsx:81-86 | a row has four fields |
| `Dashboard.CsvRows` | components/Dashboard.tsx:81-87 | one row per entry, in ledger order |
| `Dashboard.ExportCsv` | components/Dashboard.tsx:74-89 | there is no report exactly when the ledger is empty |
| `Dashboard.EscapeKeepsAbsence` | components/Dashboard.tsx:84 | quote doubling introduces no other character |
| `Dashboard.JoinKeepsAbsence` | components/Dashboard.tsx:86 | a join introduces no character but the separator |
| `Dashboard.RowHasNoNewline` | components/Dashboard.tsx:81-86 | a row holds no line break when its date and description hold none |
| `Dashboard.CsvLines` | components/Dashboard.tsx:80-89 | cutting the report at line breaks gives the header and then one row per entry, in order |
| `FloorPlan.FilterGroupsPartitionTypes` | components/FloorPlan.tsx:35-39 | every point type belongs to exactly one filter button |
| `FloorPlan.ToggledFilters` | components/FloorPlan.tsx:82-89 | a fully shown group is hidden (every occurrence removed, the rest kept in order and with their multiplicity); otherwise the group is appended and shown |
| `FloorPlan.ToggleTwiceRestores` | components/FloorPlan.tsx:82-89 | showing a hidden group and hiding it again restores the filter list |
| `FloorPlan.VisiblePoints` | components/FloorPlan.tsx:171 | exactly the points of an active type are drawn, in order and each as often as in the list |
| `FloorPlan.ShowAllHideAll` | components/FloorPlan.tsx:223-224 | "Mostrar Todos" shows every point in order; "Esconder Todos" shows none |
| `FloorPlan.Clamp` | components/FloorPlan.tsx:142-143 | a dragged coordinate stays in [0, 100] and is unchanged inside it |
| `FloorPlan.ZoomedIn` | components/FloorPlan.tsx:156 | zooming in adds 0.2 up to the cap of 3, is exactly 3 once the step would reach it, and never lowers the zoom |
| `FloorPlan.ZoomedOut` | components/FloorPlan.tsx:157 | zooming out subtracts 0.2 down to the floor of 0.5, is exactly 0.5 once the step would reach it, and never raises the zoom |
| `FloorPlan.InitialPlansNumbered` | components/FloorPlan.tsx:69-73 | the two initial pages are numbered 1 and 2 in order, and the initially active id `plan1` names one of them |
| `FloorPlan.NumberedPlanIdsDistinct` | components/FloorPlan.tsx:159-166 | pages numbered in order have distinct ids |
| `FloorPlan.NextPlanIsNew` | components/FloorPlan.tsx:159-166 | the next numbered page keeps the numbering and its id is not yet taken |
| `FloorPlan.FindPlan` | components/FloorPlan.tsx:170 | `find` by id returns nothing exactly when no page has the id, otherwise a page with it |
| `FloorPlan.PlanImage` | components/FloorPlan.tsx:173-185 | an uploaded picture wins; otherwise page 1 shows the security or base drawing and other pages the empty drawing |
| `FloorPlan.SecurityImageOnlyOnFirstPlan` | components/FloorPlan.tsx:179-185 | without uploads the security drawing shows exactly on page 1 with the layer on |
| `FloorPlan.FloorPlanView.constructor` | components/FloorPlan.tsx:66-78 | all types shown, no security layer, pages P1 and P2, page 1 active, no placement or drag, zoom 1 |
| `FloorPlan.FloorPlanView.ActivePlan` | components/FloorPlan.tsx:170 | in a valid view the active page exists |
| `FloorPlan.FloorPlanView.ToggleFilter` | components/FloorPlan.tsx:82-89 | the filter list becomes the toggled list |
| `FloorPlan.FloorPlanView.ShowAll` | components/FloorPlan.tsx:223 | every type is shown |
| `FloorPlan.FloorPlanView.HideAll` | components/FloorPlan.tsx:224 | no type is shown |
| `FloorPlan.FloorPlanView.SelectPointType` | components/FloorPlan.tsx:121-123 | pressing the active type leaves placement mode; any other type enters it |
| `FloorPlan.FloorPlanView.PlanClick` | components/FloorPlan.tsx:110-119 | in placement mode a click places one point of the chosen type and leaves the mode; otherwise nothing happens |
| `FloorPlan.FloorPlanView.PointDragStart` | components/FloorPlan.tsx:125-130 | the point is held and no movement has happened yet |
| `FloorPlan.FloorPlanView.DragMove` | components/FloorPlan.tsx:132-146 | while a point is held it moves to the clamped pointer position and the drag counts as movement; otherwise nothing happens |
| `FloorPlan.FloorPlanView.DragEnd` | components/FloorPlan.tsx:148-154 | the point is released |
| `FloorPlan.FloorPlanView.DragSettled` | components/FloorPlan.tsx:149-151 | after the delay the movement flag clears |
| `FloorPlan.FloorPlanView.PointClick` | components/FloorPlan.tsx:314-319 | a click opens the point's details unless it ends a drag that moved |
| `FloorPlan.FloorPlanView.ZoomIn` | components/FloorPlan.tsx:156 | zoom becomes the zoomed-in value, staying within [0.5, 3] |
| `FloorPlan.FloorPlanView.ZoomOut` | components/FloorPlan.tsx:157 | zoom becomes the zoomed-out value, staying within [0.5, 3] |
| `FloorPlan.FloorPlanView.AddFloorPlan` | components/FloorPlan.tsx:159-168 | appends the next numbered page without a picture and shows it; its id is new |
| `FloorPlan.FloorPlanView.SelectPlan` | components/FloorPlan.tsx:268 | the chosen page becomes the active one |
| `FloorPlan.FloorPlanView.ToggleSecurityLayer` | components/FloorPlan.tsx:252-253 | on page 1 the layer flips; elsewhere the switch is disabled and nothing changes |

## Left out

- Rendering is not modelled. This covers JSX, styling, the header,
  sidebar and settings views, and the charts drawn with recharts. The
  print view of the board (components/KanbanBoard.tsx:198-267) is left
  out as well.
- Plan picture upload is not modelled (components/FloorPlan.tsx:91-104).
  It works through `FileReader`, which is browser I/O. So in this model no
  page ever has a picture; `PlanImage` still covers the branch where one
  is present.
- The CSV download is not modelled: the `Blob`, the byte-order mark and
  the hidden link (components/Dashboard.tsx:90-98). These are browser I/O.
- `alert` and `confirm` are not modelled. Only the confirmed path of a
  deletion is modelled, and the empty-ledger alert is the `None` report.
- `Date.now()` ids, uploaded photo URLs and `parseFloat` are parameters.
  They are clock, I/O and floating-point parsing respectively.
- Pointer positions are not converted. `getBoundingClientRect` and the
  pixel-to-percent conversion are left out, because they are DOM
  geometry. Click and drag positions arrive already in percent.
- The drop index is not derived from the DOM. Which element received the
  drop is the boolean `onCard` of `KanbanBoard.DropIndex`.
- Locale formatting is not modelled. Trend dates keep the raw date
  string instead of the `toLocaleDateString` rendering.
- `toFixed` switches to exponent form at 1e21 and above. This is not
  modelled, because amounts are integer cents.
- `Dashboard.SortByDate` is a stable insertion sort (`Dashboard.SortByDateStable`),
  as `Array.prototype.sort` has been since ECMAScript 2019. The source's
  comparator is `new Date(...).getTime()` differences, modelled as the
  `dateKey` parameter. What an engine's `sort` does with unparsable
  dates (NaN comparisons) is not modelled.
- `Dashboard.TrendIncreasing` assumes that every amount is positive. The
  cost form only hands on positive amounts (`Dashboard.CostForm.Submit`),
  and the initial ledger is empty. But `addCostEntry` in `App` takes any
  entry, so the model does not keep positive amounts as an invariant of
  `App.AppState`.
- `Dashboard.CostForm.Submit`, `App.AppState.AddCostEntry` and the CSV
  amount use integer cents. Fractional-cent amounts and float rounding of
  sums are not captured.
- `FloorPlan.FloorPlanView.DragSettled` models the 50 ms `setTimeout`
  callback as an operation of its own. Its timing relative to other
  events is not modelled.
- `PointDetails.PointDetailsForm.ToggleChecklist` copies the item it
  flips. The source flips the item object in place, and that object is
  shared with the checklist templates and the point in `App` state. That
  aliasing is not captured.
- `Constants.CreateDefaultPoint` gives every new point fresh checklist
  items in their template state. In the source, `[...networkChecklist]`
  and the other spreads (constants.tsx:41-53) copy only the array. The
  item objects are shared by every point of a type, and CFTV and CFTV 360
  share one template. A tick in a point's dialog
  (components/PointDetailsModal.tsx:33) flips the shared object. It
  therefore shows on every existing point of that type and on every point
  created later. Unticking the rack's first item unticks it for every
  rack, present and future. So the pre-ticked pattern of the contract
  holds in the source only until the first toggle of that type. The model
  keeps each point's checklist its own.
- `App.AppState.UpdateTaskStatus` takes a valid source index whose entry
  is the moved id. This is what the board always passes. The source's
  `splice` on an out-of-range index would remove nothing; that case is
  not modelled.
- `App.AppState.UpdateTaskStatus` models the updater as a pure function
  of the previous columns. In the source, the shallow column copy shares
  the previous `taskIds` arrays, and `splice` mutates them in place. So a
  second call of the same updater, as React's development mode makes,
  would splice twice. That is not captured.
- Task deletion and the board's `onTaskClick` flow are not wired in
  `App.tsx`. They are not modelled beyond `TaskDetails`.
