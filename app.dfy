/** The top-level state container (`App.tsx`): the floor-plan points, the
    financial data, the kanban tasks and columns, and the point shown in the
    details dialog. Each handler is a method that replaces the fields it owns.
    Ids that the source draws from the clock are parameters here, and the
    `window.confirm` prompts are taken as answered "yes". */
module App {
  import opened Types
  import opened Collections
  import opened Board
  import Constants

  /** The point `addPoint` builds: the default template for its type plus an id and a position. */
  function NewPoint(t: PointType, id: string, coords: Coords): (p: ProjectPoint)
    ensures p.id == id && p.coords == coords && p.pointType == t
    ensures var d := Constants.CreateDefaultPoint(t);
      && p.name == d.name && p.room == d.room && p.status == d.status
      && p.checklist == d.checklist && p.materials == d.materials
      && p.notes == d.notes && p.photos == d.photos
  {
    var d := Constants.CreateDefaultPoint(t);
    ProjectPoint(id, d.name, d.room, d.pointType, d.status, coords, d.checklist, d.materials, d.notes, d.photos)
  }

  /** `points.find(p => p.id === id)`: the first point with that id, if any. */
  function FindPoint(points: seq<ProjectPoint>, id: string): (r: Option<ProjectPoint>)
    ensures r.None? <==> forall i :: 0 <= i < |points| ==> points[i].id != id
    ensures r.Some? ==> exists i :: (0 <= i < |points| && points[i] == r.value && r.value.id == id
      && forall j :: 0 <= j < i ==> points[j].id != id)
  {
    if |points| == 0 then None
    else if points[0].id == id then Some(points[0])
    else
      var r := FindPoint(points[1..], id);
      if r.Some? then
        ghost var i :| 0 <= i < |points[1..]| && points[1..][i] == r.value && r.value.id == id
          && forall j :: 0 <= j < i ==> points[1..][j].id != id;
        assert points[i + 1] == r.value;
        r
      else r
  }

  /** `after` is `before` with the points carrying `id` rewritten in place,
      each keeping its id, and every other point untouched. */
  predicate UpdatedById(before: seq<ProjectPoint>, after: seq<ProjectPoint>, id: string)
  {
    && |after| == |before|
    && forall i :: 0 <= i < |before| ==>
         (before[i].id == id ==> after[i].id == id) && (before[i].id != id ==> after[i] == before[i])
  }

  /** After an update by id, looking the id up finds the rewritten version of
      the point it found before, at the same position. */
  lemma {:induction false} UpdateKeepsLookupPosition(before: seq<ProjectPoint>, after: seq<ProjectPoint>, id: string, i: nat)
    requires UpdatedById(before, after, id)
    requires i < |before| && before[i].id == id && forall j :: 0 <= j < i ==> before[j].id != id
    ensures FindPoint(after, id) == Some(after[i])
  {
    if i > 0 {
      assert UpdatedById(before[1..], after[1..], id);
      UpdateKeepsLookupPosition(before[1..], after[1..], id, i - 1);
    }
  }

  /** An update by id leaves the lookup of every other id as it was. */
  lemma {:induction false} UpdateKeepsOtherLookups(before: seq<ProjectPoint>, after: seq<ProjectPoint>, id: string, k: string)
    requires UpdatedById(before, after, id) && k != id
    ensures FindPoint(after, k) == FindPoint(before, k)
    decreases |before|
  {
    if |before| > 0 {
      assert UpdatedById(before[1..], after[1..], id);
      UpdateKeepsOtherLookups(before[1..], after[1..], id, k);
    }
  }

  /** The lookup after an update by id finds a point exactly when the lookup
      before did, and then the one at the same position. */
  lemma FoundAfterUpdate(before: seq<ProjectPoint>, after: seq<ProjectPoint>, id: string)
    requires UpdatedById(before, after, id)
    ensures FindPoint(after, id).Some? <==> FindPoint(before, id).Some?
    ensures FindPoint(before, id).Some? ==>
      exists i :: 0 <= i < |before| && FindPoint(before, id) == Some(before[i]) && FindPoint(after, id) == Some(after[i])
  {
    if FindPoint(before, id).Some? {
      var i :| 0 <= i < |before| && before[i] == FindPoint(before, id).value && before[i].id == id
        && forall j :: 0 <= j < i ==> before[j].id != id;
      UpdateKeepsLookupPosition(before, after, id, i);
    } else {
      assert forall i :: 0 <= i < |after| ==> after[i].id != id;
    }
  }

  /** `points.filter(p => p.id !== id)`. */
  function WithoutPoint(points: seq<ProjectPoint>, id: string): (r: seq<ProjectPoint>)
    ensures forall i :: 0 <= i < |r| ==> r[i].id != id && r[i] in points
    ensures forall i :: 0 <= i < |points| && points[i].id != id ==> points[i] in r
    ensures Subsequence(r, points)
    ensures forall p :: multiset(r)[p] == if p.id != id then multiset(points)[p] else 0
  {
    var keep := (p: ProjectPoint) => p.id != id;
    FilterSelects(points, keep);
    Filter(points, keep)
  }

  /** Deleting a point just added under a fresh id restores the list. */
  lemma AddThenDeletePoint(points: seq<ProjectPoint>, p: ProjectPoint)
    requires forall i :: 0 <= i < |points| ==> points[i].id != p.id
    ensures WithoutPoint(points + [p], p.id) == points
  {
    var keep := (q: ProjectPoint) => q.id != p.id;
    FilterAppend(points, [p], keep);
    FilterKeepsAll(points, keep);
    assert Filter([p], keep) == [];
  }

  /** `costEntries.filter(entry => entry.id !== id)`: every entry with that id goes. */
  function WithoutEntry(entries: seq<CostEntry>, id: int): (r: seq<CostEntry>)
    ensures forall i :: 0 <= i < |r| ==> r[i].id != id && r[i] in entries
    ensures forall i :: 0 <= i < |entries| && entries[i].id != id ==> entries[i] in r
    ensures Subsequence(r, entries)
    ensures forall e :: multiset(r)[e] == if e.id != id then multiset(entries)[e] else 0
  {
    var keep := (e: CostEntry) => e.id != id;
    FilterSelects(entries, keep);
    Filter(entries, keep)
  }

  /** Deleting an entry just added under a fresh id restores the ledger. */
  lemma AddThenDeleteEntry(entries: seq<CostEntry>, e: NewCostEntry, id: int)
    requires forall i :: 0 <= i < |entries| ==> entries[i].id != id
    ensures WithoutEntry(entries + [WithEntryId(e, id)], id) == entries
  {
    var keep := (x: CostEntry) => x.id != id;
    FilterAppend(entries, [WithEntryId(e, id)], keep);
    FilterKeepsAll(entries, keep);
    assert Filter([WithEntryId(e, id)], keep) == [];
  }

  class AppState {
    var points: seq<ProjectPoint>
    var financialData: FinancialData
    var kanbanTasks: seq<KanbanTask>
    var kanbanColumns: Columns
    var selectedPoint: Option<ProjectPoint>

    /** The kanban half of the state keeps single ownership. */
    predicate Valid()
      reads this
    {
      BoardInvariant(kanbanColumns, kanbanTasks)
    }

    constructor()
      ensures Valid()
      ensures points == [] && financialData == Constants.FinancialDataInitial
      ensures kanbanTasks == [] && kanbanColumns == Constants.InitialKanbanColumns
      ensures selectedPoint == None
    {
      points := [];
      financialData := Constants.FinancialDataInitial;
      kanbanTasks := [];
      kanbanColumns := Constants.InitialKanbanColumns;
      selectedPoint := None;
      InitialBoardValid();
    }

    /** `handlePointSelect`: open the details of the point with that id, or close them. */
    method SelectPoint(pointId: Option<string>)
      modifies this`selectedPoint
      ensures selectedPoint == if pointId.None? then None else FindPoint(points, pointId.value)
    {
      if pointId.None? {
        selectedPoint := None;
      } else {
        selectedPoint := FindPoint(points, pointId.value);
      }
    }

    /** `addPoint`: append a default point of the chosen type at the clicked position. */
    method AddPoint(t: PointType, coords: Coords, id: string)
      modifies this`points
      ensures points == old(points) + [NewPoint(t, id, coords)]
    {
      points := points + [NewPoint(t, id, coords)];
    }

    /** `deletePoint`: drop every point with that id and close the details dialog. */
    method DeletePoint(pointId: string)
      modifies this`points, this`selectedPoint
      ensures points == WithoutPoint(old(points), pointId)
      ensures selectedPoint == None
    {
      points := WithoutPoint(points, pointId);
      selectedPoint := None;
    }

    /** `updatePointStatus`: the matching point gets the new status and
        checklist; the dialog then shows the updated point (or closes when no
        point has that id). */
    method UpdatePointStatus(pointId: string, newStatus: PointStatus, newChecklist: seq<ChecklistItem>)
      modifies this`points, this`selectedPoint
      ensures |points| == |old(points)|
      ensures forall i :: 0 <= i < |points| ==>
        points[i] == if old(points)[i].id == pointId
                     then old(points)[i].(status := newStatus, checklist := newChecklist)
                     else old(points)[i]
      ensures FindPoint(old(points), pointId).None? ==> selectedPoint == None
      ensures FindPoint(old(points), pointId).Some? ==>
        selectedPoint == Some(FindPoint(old(points), pointId).value.(status := newStatus, checklist := newChecklist))
    {
      var ps := points;
      points := seq(|ps|, i requires 0 <= i < |ps| =>
        if ps[i].id == pointId then ps[i].(status := newStatus, checklist := newChecklist) else ps[i]);
      selectedPoint := FindPoint(points, pointId);
      FoundAfterUpdate(ps, points, pointId);
    }

    /** `updatePointDetails`: the matching point gets the new notes and photos;
        the dialog shows the updated point when there is one. */
    method UpdatePointDetails(pointId: string, details: UpdatePointDetailsPayload)
      modifies this`points, this`selectedPoint
      ensures |points| == |old(points)|
      ensures forall i :: 0 <= i < |points| ==>
        points[i] == if old(points)[i].id == pointId
                     then old(points)[i].(notes := details.notes, photos := details.photos)
                     else old(points)[i]
      ensures FindPoint(old(points), pointId).None? ==> selectedPoint == old(selectedPoint)
      ensures FindPoint(old(points), pointId).Some? ==>
        selectedPoint == Some(FindPoint(old(points), pointId).value.(notes := details.notes, photos := details.photos))
    {
      var ps := points;
      points := seq(|ps|, i requires 0 <= i < |ps| =>
        if ps[i].id == pointId then ps[i].(notes := details.notes, photos := details.photos) else ps[i]);
      FoundAfterUpdate(ps, points, pointId);
      var updated := FindPoint(points, pointId);
      if updated.Some? {
        selectedPoint := updated;
      }
    }

    /** `updatePointPosition`: the matching point moves; nothing else changes. */
    method UpdatePointPosition(pointId: string, coords: Coords)
      modifies this`points
      ensures |points| == |old(points)|
      ensures forall i :: 0 <= i < |points| ==>
        points[i] == if old(points)[i].id == pointId then old(points)[i].(coords := coords) else old(points)[i]
    {
      var ps := points;
      points := seq(|ps|, i requires 0 <= i < |ps| =>
        if ps[i].id == pointId then ps[i].(coords := coords) else ps[i]);
    }

    /** `addCostEntry`: the entry, with its new id, goes at the end of the ledger. */
    method AddCostEntry(entry: NewCostEntry, id: int)
      modifies this`financialData
      ensures financialData == old(financialData).(costEntries := old(financialData).costEntries + [WithEntryId(entry, id)])
    {
      financialData := financialData.(costEntries := financialData.costEntries + [WithEntryId(entry, id)]);
    }

    /** `deleteCostEntry`: every entry with that id leaves the ledger. */
    method DeleteCostEntry(entryId: int)
      modifies this`financialData
      ensures financialData == old(financialData).(costEntries := WithoutEntry(old(financialData).costEntries, entryId))
    {
      financialData := financialData.(costEntries := WithoutEntry(financialData.costEntries, entryId));
    }

    /** `handleAddTask`: the new task joins the task list with column "todo",
        and its id goes at the end of the "todo" list. */
    method AddTask(task: NewTask, id: string)
      requires Valid() && id !in TaskIds(kanbanTasks)
      modifies this`kanbanTasks, this`kanbanColumns
      ensures Valid()
      ensures kanbanTasks == old(kanbanTasks) + [NewKanbanTask(task, id)]
      ensures kanbanColumns == ColumnsWithNewTask(old(kanbanColumns), id)
    {
      AddTaskPreservesInvariant(kanbanColumns, kanbanTasks, task, id);
      kanbanTasks := kanbanTasks + [NewKanbanTask(task, id)];
      kanbanColumns := ColumnsWithNewTask(kanbanColumns, id);
    }

    /** `handleUpdateTaskStatus`: nothing happens for the same column and the
        same index; otherwise the columns are spliced and the moved task's
        `column` becomes the destination. */
    method UpdateTaskStatus(taskId: string, sourceColumnId: KanbanColumnId, destColumnId: KanbanColumnId,
                            sourceIndex: nat, destIndex: nat)
      requires Valid()
      requires sourceIndex < |kanbanColumns[sourceColumnId].taskIds|
      requires kanbanColumns[sourceColumnId].taskIds[sourceIndex] == taskId
      modifies this`kanbanTasks, this`kanbanColumns
      ensures Valid()
      ensures sourceColumnId == destColumnId && sourceIndex == destIndex ==>
        kanbanColumns == old(kanbanColumns) && kanbanTasks == old(kanbanTasks)
      ensures sourceColumnId != destColumnId || sourceIndex != destIndex ==>
        kanbanColumns == MovedColumns(old(kanbanColumns), sourceColumnId, destColumnId, sourceIndex, destIndex)
      ensures sourceColumnId != destColumnId || sourceIndex != destIndex ==>
        kanbanTasks == Retagged(old(kanbanTasks), taskId, destColumnId)
    {
      if sourceColumnId == destColumnId && sourceIndex == destIndex {
        return;
      }
      var cols := MovedColumns(kanbanColumns, sourceColumnId, destColumnId, sourceIndex, destIndex);
      var tasks := Retagged(kanbanTasks, taskId, destColumnId);
      MovePreservesInvariant(kanbanColumns, kanbanTasks, taskId, sourceColumnId, destColumnId, sourceIndex, destIndex);
      kanbanColumns, kanbanTasks := cols, tasks;
    }
  }
}
