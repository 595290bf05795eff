/** The kanban board state of `App.tsx` as values: the column map, the task
    list, the single-ownership invariant, and the two board commands (add a
    task, move a task) as functions of the old state. The `App` class applies
    them to its fields. */
module Board {
  import opened Types
  import opened Collections
  import Constants

  type Columns = map<KanbanColumnId, KanbanColumn>

  /** Every stage is present and keyed by its own id. */
  predicate WellFormedColumns(cols: Columns)
  {
    forall c: KanbanColumnId :: c in cols && cols[c].id == c
  }

  /** All ids on the board, column after column. */
  function AllIds(cols: Columns): seq<string>
    requires WellFormedColumns(cols)
  {
    cols[Todo].taskIds + cols[Inprogress].taskIds + cols[Done].taskIds
  }

  function TaskIds(tasks: seq<KanbanTask>): (ids: seq<string>)
    ensures |ids| == |tasks| && forall i :: 0 <= i < |tasks| ==> ids[i] == tasks[i].id
  {
    seq(|tasks|, i requires 0 <= i < |tasks| => tasks[i].id)
  }

  /** Single ownership: task ids are unique, the column lists together hold
      exactly the task ids, once each, and each task's id is listed under the
      column its `column` field names. */
  predicate BoardInvariant(cols: Columns, tasks: seq<KanbanTask>)
  {
    && WellFormedColumns(cols)
    && Distinct(TaskIds(tasks))
    && multiset(AllIds(cols)) == multiset(TaskIds(tasks))
    && forall i :: 0 <= i < |tasks| ==> tasks[i].id in cols[tasks[i].column].taskIds
  }

  /** The board holds each task in exactly one column: the one its `column` names. */
  lemma ExactlyOneColumn(cols: Columns, tasks: seq<KanbanTask>, i: nat, c: KanbanColumnId)
    requires BoardInvariant(cols, tasks) && i < |tasks|
    ensures tasks[i].id in cols[c].taskIds <==> c == tasks[i].column
  {
    var x := tasks[i].id;
    assert x in TaskIds(tasks);
    DistinctCount(TaskIds(tasks), x);
    var m := multiset(AllIds(cols));
    assert m[x] == multiset(cols[Todo].taskIds)[x] + multiset(cols[Inprogress].taskIds)[x]
      + multiset(cols[Done].taskIds)[x];
    assert multiset(cols[tasks[i].column].taskIds)[x] >= 1;
  }

  /** No column lists an id twice. */
  lemma ColumnsDistinct(cols: Columns, tasks: seq<KanbanTask>, c: KanbanColumnId)
    requires BoardInvariant(cols, tasks)
    ensures Distinct(cols[c].taskIds)
  {
    var s := cols[c].taskIds;
    forall i, j | 0 <= i < j < |s| ensures s[i] != s[j] {
      if s[i] == s[j] {
        RepeatCount(s, i, j);
        assert multiset(AllIds(cols))[s[i]] >= multiset(s)[s[i]];
        DistinctCount(TaskIds(tasks), s[i]);
        assert false;
      }
    }
  }

  /** Every listed id belongs to a task whose `column` is the listing column. */
  lemma ListedIdsOwned(cols: Columns, tasks: seq<KanbanTask>, c: KanbanColumnId, k: nat)
    requires BoardInvariant(cols, tasks) && k < |cols[c].taskIds|
    ensures exists i :: 0 <= i < |tasks| && tasks[i].id == cols[c].taskIds[k] && tasks[i].column == c
  {
    var x := cols[c].taskIds[k];
    assert x in multiset(AllIds(cols));
    assert x in TaskIds(tasks);
    var i :| 0 <= i < |tasks| && TaskIds(tasks)[i] == x;
    ExactlyOneColumn(cols, tasks, i, c);
  }

  /** The column map with column `c` listing `ids`; every other column, and
      every title, as before. */
  function WithTaskIds(cols: Columns, c: KanbanColumnId, ids: seq<string>): (r: Columns)
    requires WellFormedColumns(cols)
    ensures WellFormedColumns(r) && r[c].taskIds == ids
    ensures forall d :: d != c ==> r[d] == cols[d]
    ensures forall d :: r[d].title == cols[d].title
  {
    cols[c := cols[c].(taskIds := ids)]
  }

  /** `handleUpdateTaskStatus` on the columns: splice the id at `sourceIndex`
      out of the source list, then splice it into the destination list at
      `destIndex`. When source and destination coincide the destination is the
      same (already shortened) list, so `destIndex` counts positions after the
      removal. */
  function MovedColumns(cols: Columns, src: KanbanColumnId, dst: KanbanColumnId, si: nat, di: nat): (r: Columns)
    requires WellFormedColumns(cols) && si < |cols[src].taskIds|
    ensures WellFormedColumns(r)
    ensures forall c :: c != src && c != dst ==> r[c] == cols[c]
    ensures forall c :: r[c].title == cols[c].title
    ensures src == dst ==>
      r[src].taskIds == InsertAt(RemoveAt(cols[src].taskIds, si), di, cols[src].taskIds[si])
    ensures src != dst ==>
      && r[src].taskIds == RemoveAt(cols[src].taskIds, si)
      && r[dst].taskIds == InsertAt(cols[dst].taskIds, di, cols[src].taskIds[si])
      && |r[src].taskIds| + |r[dst].taskIds| == |cols[src].taskIds| + |cols[dst].taskIds|
  {
    var moved := cols[src].taskIds[si];
    var removed := RemoveAt(cols[src].taskIds, si);
    if src == dst then
      WithTaskIds(cols, src, InsertAt(removed, di, moved))
    else
      var shortened := WithTaskIds(cols, src, removed);
      WithTaskIds(shortened, dst, InsertAt(cols[dst].taskIds, di, moved))
  }

  /** A move neither adds nor drops ids: the board lists the same multiset of ids. */
  lemma MoveKeepsBoardIds(cols: Columns, src: KanbanColumnId, dst: KanbanColumnId, si: nat, di: nat)
    requires WellFormedColumns(cols) && si < |cols[src].taskIds|
    ensures multiset(AllIds(MovedColumns(cols, src, dst, si, di))) == multiset(AllIds(cols))
  {
    MoveKeepsIdMultiset(cols, MovedColumns(cols, src, dst, si, di), src, dst, si, di);
  }

  /** How often `x` is listed on the board, column by column. */
  lemma CountByColumn(cols: Columns, x: string)
    requires WellFormedColumns(cols)
    ensures multiset(AllIds(cols))[x] == multiset(cols[Todo].taskIds)[x]
      + multiset(cols[Inprogress].taskIds)[x] + multiset(cols[Done].taskIds)[x]
  {
  }

  /** The splice relation between an old and a new column map, as `MovedColumns` states it. */
  predicate SplicedFrom(cols: Columns, r: Columns, src: KanbanColumnId, dst: KanbanColumnId, si: nat, di: nat)
    requires WellFormedColumns(cols) && WellFormedColumns(r) && si < |cols[src].taskIds|
  {
    && (forall c :: c != src && c != dst ==> r[c] == cols[c])
    && (src == dst ==>
      r[src].taskIds == InsertAt(RemoveAt(cols[src].taskIds, si), di, cols[src].taskIds[si]))
    && (src != dst ==>
      && r[src].taskIds == RemoveAt(cols[src].taskIds, si)
      && r[dst].taskIds == InsertAt(cols[dst].taskIds, di, cols[src].taskIds[si]))
  }

  /** How often `x` is listed in column `c`. */
  function ColumnCount(cols: Columns, c: KanbanColumnId, x: string): nat
    requires WellFormedColumns(cols)
  {
    multiset(cols[c].taskIds)[x]
  }

  /** Per column, a splice takes the moved id out of the source and puts it in the destination. */
  lemma SpliceColumnCount(cols: Columns, r: Columns, src: KanbanColumnId, dst: KanbanColumnId, si: nat, di: nat,
                          x: string, c: KanbanColumnId)
    requires WellFormedColumns(cols) && WellFormedColumns(r) && si < |cols[src].taskIds|
    requires SplicedFrom(cols, r, src, dst, si, di)
    ensures var m := multiset{cols[src].taskIds[si]}[x];
      ColumnCount(r, c, x) + (if c == src then m else 0) == ColumnCount(cols, c, x) + (if c == dst then m else 0)
  {
    var moved := cols[src].taskIds[si];
    var removed := RemoveAt(cols[src].taskIds, si);
    RemoveAtMultiset(cols[src].taskIds, si);
    assert multiset(removed)[x] + multiset{moved}[x] == multiset(cols[src].taskIds)[x];
    if c == src && c == dst {
      InsertAtMultiset(removed, di, moved);
      assert multiset(r[c].taskIds) == multiset(removed) + multiset{moved};
    } else if c == dst {
      InsertAtMultiset(cols[c].taskIds, di, moved);
      assert multiset(r[c].taskIds) == multiset(cols[c].taskIds) + multiset{moved};
    }
  }

  /** A splice keeps how often any one id is listed on the board. */
  lemma MoveKeepsCount(cols: Columns, r: Columns, src: KanbanColumnId, dst: KanbanColumnId, si: nat, di: nat, x: string)
    requires WellFormedColumns(cols) && WellFormedColumns(r) && si < |cols[src].taskIds|
    requires SplicedFrom(cols, r, src, dst, si, di)
    ensures multiset(AllIds(r))[x] == multiset(AllIds(cols))[x]
  {
    CountByColumn(r, x);
    CountByColumn(cols, x);
    SpliceColumnCount(cols, r, src, dst, si, di, x, Todo);
    SpliceColumnCount(cols, r, src, dst, si, di, x, Inprogress);
    SpliceColumnCount(cols, r, src, dst, si, di, x, Done);
  }

  /** Any column map spliced from the old one lists the same multiset of ids. */
  lemma MoveKeepsIdMultiset(cols: Columns, r: Columns, src: KanbanColumnId, dst: KanbanColumnId, si: nat, di: nat)
    requires WellFormedColumns(cols) && WellFormedColumns(r) && si < |cols[src].taskIds|
    requires SplicedFrom(cols, r, src, dst, si, di)
    ensures multiset(AllIds(r)) == multiset(AllIds(cols))
  {
    forall x ensures multiset(AllIds(r))[x] == multiset(AllIds(cols))[x] {
      MoveKeepsCount(cols, r, src, dst, si, di, x);
    }
  }

  /** `handleUpdateTaskStatus` on the tasks: the task(s) with the moved id get
      the destination column; every other task is kept as it was. */
  function Retagged(tasks: seq<KanbanTask>, taskId: string, dst: KanbanColumnId): (r: seq<KanbanTask>)
    ensures |r| == |tasks| && TaskIds(r) == TaskIds(tasks)
    ensures forall i :: 0 <= i < |tasks| ==>
      r[i] == if tasks[i].id == taskId then tasks[i].(column := dst) else tasks[i]
  {
    seq(|tasks|, i requires 0 <= i < |tasks| =>
      if tasks[i].id == taskId then tasks[i].(column := dst) else tasks[i])
  }

  /** A move to the same column and the same index changes nothing, even
      without the early return the source takes for it. */
  lemma MoveSameIndexIsIdentity(cols: Columns, c: KanbanColumnId, i: nat)
    requires WellFormedColumns(cols) && i < |cols[c].taskIds|
    ensures MovedColumns(cols, c, c, i, i) == cols
  {
    RemoveInsertSameIndex(cols[c].taskIds, i);
    var r := MovedColumns(cols, c, c, i, i);
    assert r[c] == cols[c];
  }

  /** A move inside one column leaves the task list as it is (the moved task
      already names that column). */
  lemma SameColumnRetagIsIdentity(cols: Columns, tasks: seq<KanbanTask>, c: KanbanColumnId, taskId: string)
    requires BoardInvariant(cols, tasks) && taskId in cols[c].taskIds
    ensures Retagged(tasks, taskId, c) == tasks
  {
    var r := Retagged(tasks, taskId, c);
    forall i | 0 <= i < |tasks| ensures r[i] == tasks[i] {
      if tasks[i].id == taskId {
        ExactlyOneColumn(cols, tasks, i, c);
      }
    }
  }

  /** An id listed at most once on the board, and listed under `d`, is listed under `d` only. */
  lemma OnlyColumn(cols: Columns, x: string, d: KanbanColumnId)
    requires WellFormedColumns(cols) && multiset(AllIds(cols))[x] <= 1 && x in cols[d].taskIds
    ensures forall c :: x in cols[c].taskIds <==> c == d
  {
    CountByColumn(cols, x);
    assert multiset(cols[d].taskIds)[x] >= 1;
  }

  /** The moved id lands in the destination list at the requested index,
      clamped to the end of that list. */
  lemma MoveLandsAt(cols: Columns, src: KanbanColumnId, dst: KanbanColumnId, si: nat, di: nat)
    requires WellFormedColumns(cols) && si < |cols[src].taskIds|
    ensures var r := MovedColumns(cols, src, dst, si, di);
      r[dst].taskIds[Min(di, |r[dst].taskIds| - 1)] == cols[src].taskIds[si]
  {
    var r := MovedColumns(cols, src, dst, si, di);
    if src == dst {
      var rem := RemoveAt(cols[src].taskIds, si);
      assert |r[dst].taskIds| - 1 == |rem|;
    } else {
      assert |r[dst].taskIds| - 1 == |cols[dst].taskIds|;
    }
  }

  /** A move keeps every other id in the column that listed it. */
  lemma MoveKeepsOthers(cols: Columns, src: KanbanColumnId, dst: KanbanColumnId, si: nat, di: nat,
                        c: KanbanColumnId, x: string)
    requires WellFormedColumns(cols) && si < |cols[src].taskIds|
    requires x in cols[c].taskIds && x != cols[src].taskIds[si]
    ensures x in MovedColumns(cols, src, dst, si, di)[c].taskIds
  {
    var s := cols[src].taskIds;
    if c == src {
      RemoveKeepsOthers(s, si, x);
      if src == dst {
        InsertKeepsOthers(RemoveAt(s, si), di, s[si], x);
      }
    } else if c == dst {
      InsertKeepsOthers(cols[dst].taskIds, di, s[si], x);
    }
  }

  /** After a move on a valid board the id is listed under the destination
      column and under no other. */
  lemma MoveListsTaskOnce(cols: Columns, tasks: seq<KanbanTask>, src: KanbanColumnId, dst: KanbanColumnId, si: nat, di: nat)
    requires BoardInvariant(cols, tasks) && si < |cols[src].taskIds|
    ensures forall c :: cols[src].taskIds[si] in MovedColumns(cols, src, dst, si, di)[c].taskIds <==> c == dst
  {
    var r := MovedColumns(cols, src, dst, si, di);
    var x := cols[src].taskIds[si];
    MoveLandsAt(cols, src, dst, si, di);
    MoveKeepsBoardIds(cols, src, dst, si, di);
    DistinctCount(TaskIds(tasks), x);
    OnlyColumn(r, x, dst);
  }

  /** A valid move keeps the single-ownership invariant: ids stay unique, the
      board lists exactly the task ids, and the moved task's `column` follows
      it to the destination. */
  lemma MovePreservesInvariant(cols: Columns, tasks: seq<KanbanTask>, taskId: string,
                               src: KanbanColumnId, dst: KanbanColumnId, si: nat, di: nat)
    requires BoardInvariant(cols, tasks)
    requires si < |cols[src].taskIds| && cols[src].taskIds[si] == taskId
    ensures BoardInvariant(MovedColumns(cols, src, dst, si, di), Retagged(tasks, taskId, dst))
  {
    var r := MovedColumns(cols, src, dst, si, di);
    var rt := Retagged(tasks, taskId, dst);
    MoveKeepsBoardIds(cols, src, dst, si, di);
    MoveListsTaskOnce(cols, tasks, src, dst, si, di);
    forall i | 0 <= i < |rt| ensures rt[i].id in r[rt[i].column].taskIds {
      if tasks[i].id != taskId {
        MoveKeepsOthers(cols, src, dst, si, di, tasks[i].column, tasks[i].id);
      }
    }
  }

  /** `handleAddTask` on the columns: the new id goes at the end of "todo". */
  function ColumnsWithNewTask(cols: Columns, id: string): (r: Columns)
    requires WellFormedColumns(cols)
    ensures WellFormedColumns(r) && r.Keys == cols.Keys
    ensures r[Todo].taskIds == cols[Todo].taskIds + [id]
    ensures r[Todo].title == cols[Todo].title
    ensures r[Inprogress] == cols[Inprogress] && r[Done] == cols[Done]
  {
    cols[Todo := cols[Todo].(taskIds := cols[Todo].taskIds + [id])]
  }

  /** The task record `handleAddTask` builds: the form's fields, the given id, column "todo". */
  function NewKanbanTask(t: NewTask, id: string): (k: KanbanTask)
    ensures k.id == id && k.column == Todo
    ensures NewTask(k.title, k.assigneeId, k.priority, k.dueDate) == t
  {
    KanbanTask(id, t.title, t.assigneeId, t.priority, t.dueDate, Todo)
  }

  /** Adding a task under a fresh id keeps the single-ownership invariant. */
  lemma AddTaskPreservesInvariant(cols: Columns, tasks: seq<KanbanTask>, t: NewTask, id: string)
    requires BoardInvariant(cols, tasks)
    requires id !in TaskIds(tasks)
    ensures BoardInvariant(ColumnsWithNewTask(cols, id), tasks + [NewKanbanTask(t, id)])
  {
    var r := ColumnsWithNewTask(cols, id);
    var ts := tasks + [NewKanbanTask(t, id)];
    assert TaskIds(ts) == TaskIds(tasks) + [id];
    DistinctAppend(TaskIds(tasks), id);
    NewTaskIdsMultiset(cols, id);
    forall i | 0 <= i < |ts| ensures ts[i].id in r[ts[i].column].taskIds {
      if i < |tasks| {
        ListedStaysListed(cols, id, tasks[i].column, tasks[i].id);
      }
    }
  }

  /** Appending to "todo" adds exactly the new id to the board. */
  lemma NewTaskIdsMultiset(cols: Columns, id: string)
    requires WellFormedColumns(cols)
    ensures multiset(AllIds(ColumnsWithNewTask(cols, id))) == multiset(AllIds(cols)) + multiset{id}
  {
    var r := ColumnsWithNewTask(cols, id);
    assert AllIds(r) == cols[Todo].taskIds + [id] + cols[Inprogress].taskIds + cols[Done].taskIds;
  }

  /** Appending to "todo" keeps every listed id listed in its column. */
  lemma ListedStaysListed(cols: Columns, id: string, c: KanbanColumnId, x: string)
    requires WellFormedColumns(cols) && x in cols[c].taskIds
    ensures x in ColumnsWithNewTask(cols, id)[c].taskIds
  {
  }

  /** The empty initial board satisfies the invariant. */
  lemma InitialBoardValid()
    ensures BoardInvariant(Constants.InitialKanbanColumns, [])
  {
    var cols := Constants.InitialKanbanColumns;
    forall c: KanbanColumnId ensures c in cols && cols[c].id == c {
      if c == Todo {} else if c == Inprogress {} else {}
    }
    assert AllIds(cols) == [];
  }

  lemma RemoveExample(s: seq<string>, a: string, b: string, c: string, d: string)
    requires s == [a, b, c, d]
    ensures s[1] == b && RemoveAt(s, 1) == [a, c, d]
  {
    assert s[..1] == [a] && s[2..] == [c, d];
  }

  /** Same-column reorder example: in [A, B, C, D], moving index 1 to index 3
      gives [A, C, D, B]; dropping at the end (index 4, the list's length
      before removal) gives the same. */
  lemma SameColumnReorderExample(cols: Columns, a: string, b: string, c: string, d: string)
    requires WellFormedColumns(cols) && cols[Todo].taskIds == [a, b, c, d]
    ensures MovedColumns(cols, Todo, Todo, 1, 3)[Todo].taskIds == [a, c, d, b]
    ensures MovedColumns(cols, Todo, Todo, 1, 4)[Todo].taskIds == [a, c, d, b]
  {
    RemoveExample(cols[Todo].taskIds, a, b, c, d);
    SameColumnDropAtEnd(cols, Todo, 1, 3);
    SameColumnDropAtEnd(cols, Todo, 1, 4);
  }

  /** Cross-column example: with todo [A, B] and done [X], moving B to index 0
      of done leaves todo [A] and done [B, X]; the third column is untouched. */
  lemma CrossColumnExample(cols: Columns, a: string, b: string, x: string)
    requires WellFormedColumns(cols) && cols[Todo].taskIds == [a, b] && cols[Done].taskIds == [x]
    ensures var r := MovedColumns(cols, Todo, Done, 1, 0);
      r[Todo].taskIds == [a] && r[Done].taskIds == [b, x] && r[Inprogress] == cols[Inprogress]
  {
    assert RemoveAt([a, b], 1) == [a];
    assert InsertAt([x], 0, b) == [b, x];
  }

  /** Inside one column, a drop index at or past the end of the shortened
      list puts the moved id last. */
  lemma SameColumnDropAtEnd(cols: Columns, c: KanbanColumnId, si: nat, di: nat)
    requires WellFormedColumns(cols) && si < |cols[c].taskIds| && di >= |cols[c].taskIds| - 1
    ensures MovedColumns(cols, c, c, si, di)[c].taskIds == RemoveAt(cols[c].taskIds, si) + [cols[c].taskIds[si]]
  {
    InsertPastEnd(RemoveAt(cols[c].taskIds, si), di, cols[c].taskIds[si]);
  }
}
