/**
 * The board's task list and what it derives from it
 * (src/components/KanbanBoard.tsx). Every state change replaces `tasks` with
 * a mapped or extended copy; there is no placement validation, so a move is
 * applied whatever its target.
 */
module KanbanBoard {
  import opened Wrappers
  import opened Strings
  import opened Seqs
  import opened Types
  import opened Data
  import opened StickyNote

  const NewTaskContent: string := "Nuovo Task..."
  const NewBacklogTaskContent: string := "Nuovo Task Backlog..."

  /** One task after a move: the target column, and the target lane unless it is `null` (`??`). */
  function MoveTo(t: Task, columnId: string, laneId: Option<string>): (r: Task)
    ensures r.columnId == columnId && r.laneId == laneId.GetOr(t.laneId) && SameExceptPlacement(r, t)
  {
    t.(columnId := columnId, laneId := laneId.GetOr(t.laneId))
  }

  /**
   * The list after `moveTask`: same length and order; tasks with another id
   * untouched; a task with that id placed at the target and otherwise unchanged.
   */
  function Moved(ts: seq<Task>, taskId: string, columnId: string, laneId: Option<string>): (r: seq<Task>)
    ensures |r| == |ts|
    ensures forall i :: 0 <= i < |ts| && ts[i].id != taskId ==> r[i] == ts[i]
    ensures forall i :: 0 <= i < |ts| && ts[i].id == taskId ==>
      r[i].columnId == columnId && r[i].laneId == laneId.GetOr(ts[i].laneId) && SameExceptPlacement(r[i], ts[i])
  {
    if ts == [] then []
    else [if ts[0].id == taskId then MoveTo(ts[0], columnId, laneId) else ts[0]]
         + Moved(ts[1..], taskId, columnId, laneId)
  }

  /** Moving a task that is not on the board changes nothing. */
  lemma MovedAbsent(ts: seq<Task>, taskId: string, columnId: string, laneId: Option<string>)
    requires taskId !in IdSet(ts)
    ensures Moved(ts, taskId, columnId, laneId) == ts
  {
    var r := Moved(ts, taskId, columnId, laneId);
    forall i | 0 <= i < |ts| ensures r[i] == ts[i] {
      assert ts[i].id in IdSet(ts);
    }
  }

  /** Repeating the same move changes nothing more. */
  lemma MovedIdempotent(ts: seq<Task>, taskId: string, columnId: string, laneId: Option<string>)
    ensures Moved(Moved(ts, taskId, columnId, laneId), taskId, columnId, laneId) == Moved(ts, taskId, columnId, laneId)
  {
    var once := Moved(ts, taskId, columnId, laneId);
    var twice := Moved(once, taskId, columnId, laneId);
    forall i | 0 <= i < |ts| ensures twice[i] == once[i] {
      assert once[i].id == ts[i].id;
    }
  }

  /** A move never changes which ids are on the board. */
  lemma MovedKeepsIds(ts: seq<Task>, taskId: string, columnId: string, laneId: Option<string>)
    ensures IdSet(Moved(ts, taskId, columnId, laneId)) == IdSet(ts)
  {
    var r := Moved(ts, taskId, columnId, laneId);
    assert forall i :: 0 <= i < |ts| ==> r[i].id == ts[i].id;
    forall x | x in IdSet(r) ensures x in IdSet(ts) {
      var i :| 0 <= i < |r| && r[i].id == x;
      assert ts[i].id == x;
    }
    forall x | x in IdSet(ts) ensures x in IdSet(r) {
      var i :| 0 <= i < |ts| && ts[i].id == x;
      assert r[i].id == x;
    }
  }

  /**
   * The list after `updateTaskContent`: same length and order; only the
   * content of tasks with that id changes.
   */
  function ContentUpdated(ts: seq<Task>, taskId: string, newContent: string): (r: seq<Task>)
    ensures |r| == |ts|
    ensures forall i :: 0 <= i < |ts| && ts[i].id != taskId ==> r[i] == ts[i]
    ensures forall i :: 0 <= i < |ts| && ts[i].id == taskId ==>
      r[i].content == newContent && SameExceptContent(r[i], ts[i])
  {
    if ts == [] then []
    else [if ts[0].id == taskId then ts[0].(content := newContent) else ts[0]]
         + ContentUpdated(ts[1..], taskId, newContent)
  }

  /** Updating the content of a task that is not on the board changes nothing. */
  lemma ContentUpdatedAbsent(ts: seq<Task>, taskId: string, newContent: string)
    requires taskId !in IdSet(ts)
    ensures ContentUpdated(ts, taskId, newContent) == ts
  {
    var r := ContentUpdated(ts, taskId, newContent);
    forall i | 0 <= i < |ts| ensures r[i] == ts[i] {
      assert ts[i].id in IdSet(ts);
    }
  }

  /** `task-${Date.now()}-${suffix}`, the suffix standing for the random hex digits. */
  function NewTaskId(now: nat, suffix: string): (id: string)
    ensures IsTemporary(id)
  {
    StartsWithAppend(TemporaryPrefix, Decimal(now) + "-" + suffix);
    assert TemporaryPrefix + Decimal(now) + "-" + suffix == TemporaryPrefix + (Decimal(now) + "-" + suffix);
    TemporaryPrefix + Decimal(now) + "-" + suffix
  }

  /** The task a double-click on a grid cell creates: temporary id, placeholder content, no metadata. */
  function NewTask(now: nat, suffix: string, columnId: string, laneId: string): (t: Task)
    ensures IsTemporary(t.id) && t.content == NewTaskContent
    ensures t.columnId == columnId && t.laneId == laneId
    ensures t.priority == None && t.tags == None && t.dueDate == None && t.color == None
  {
    Task(NewTaskId(now, suffix), NewTaskContent, columnId, laneId, None, None, None, None)
  }

  /** The task a double-click on the backlog creates: in the backlog column, with an empty lane. */
  function NewBacklogTask(now: nat, suffix: string): (t: Task)
    ensures IsTemporary(t.id) && t.content == NewBacklogTaskContent
    ensures t.columnId == BacklogId && t.laneId == ""
    ensures t.priority == None && t.tags == None && t.dueDate == None && t.color == None
  {
    Task(NewTaskId(now, suffix), NewBacklogTaskContent, BacklogId, "", None, None, None, None)
  }

  /** `taskId && targetColumnId`: a backlog drop needs a dragged id and a column, and no lane. */
  predicate BacklogDropAccepted(taskId: string, columnId: Option<string>): (ok: bool)
    ensures ok <==> taskId != "" && columnId.Some? && columnId.value != ""
  {
    taskId != "" && Truthy(columnId)
  }

  /** `taskId && targetColumnId && targetLaneId`: a cell drop needs what a backlog drop needs, and a lane. */
  predicate CellDropAccepted(taskId: string, columnId: Option<string>, laneId: Option<string>): (ok: bool)
    ensures ok <==> BacklogDropAccepted(taskId, columnId) && laneId.Some? && laneId.value != ""
  {
    taskId != "" && Truthy(columnId) && Truthy(laneId)
  }

  /** A card dragged onto a cell is accepted exactly when its id and the cell's two ids are non-empty. */
  lemma DragToCell(t: Task, columnId: string, laneId: string)
    ensures CellDropAccepted(GetData(DragStartData(t), DragKey), Some(columnId), Some(laneId))
        <==> t.id != "" && columnId != "" && laneId != ""
  {
  }

  /** A drop whose data lacks the drag key is always refused. */
  lemma DropWithoutTaskId(data: map<string, string>, columnId: Option<string>, laneId: Option<string>)
    requires DragKey !in data
    ensures !CellDropAccepted(GetData(data, DragKey), columnId, laneId)
    ensures !BacklogDropAccepted(GetData(data, DragKey), columnId)
  {
  }

  predicate InBacklog(t: Task) {
    t.columnId == BacklogId
  }

  /** `tasks.filter(task => task.columnId === 'backlog')`. */
  function BacklogTasks(ts: seq<Task>): (r: seq<Task>)
    ensures forall t :: t in r <==> t in ts && t.columnId == BacklogId
  {
    Filter(ts, InBacklog)
  }

  /** The backlog view keeps list order: it distributes over concatenation. */
  lemma BacklogTasksInOrder(a: seq<Task>, b: seq<Task>)
    ensures BacklogTasks(a + b) == BacklogTasks(a) + BacklogTasks(b)
  {
    FilterAppend(a, b, InBacklog);
  }

  predicate IsGridColumn(c: Column) {
    c.id != BacklogId
  }

  /** `columns.filter(col => col.id !== 'backlog')`. */
  function MainGridColumns(cs: seq<Column>): (r: seq<Column>)
    ensures forall c :: c in r <==> c in cs && c.id != BacklogId
  {
    Filter(cs, IsGridColumn)
  }

  /** `columns.find(col => col.id === 'backlog')`: the first column with the backlog id. */
  function BacklogColumn(cs: seq<Column>): (r: Option<Column>)
    ensures r.Some? <==> BacklogId in ColumnIds(cs)
    ensures r.Some? ==> r.value in cs && r.value.id == BacklogId
    ensures r.Some? ==> exists k :: 0 <= k < |cs| && cs[k] == r.value && forall j :: 0 <= j < k ==> cs[j].id != BacklogId
  {
    if cs == [] then None
    else if cs[0].id == BacklogId then Some(cs[0])
    else BacklogColumn(cs[1..])
  }

  /** The tasks shown in grid cell (`columnId`, `laneId`). */
  function CellTasks(ts: seq<Task>, columnId: string, laneId: string): (r: seq<Task>)
    ensures forall t :: t in r <==> t in ts && t.columnId == columnId && t.laneId == laneId
  {
    Filter(ts, (t: Task) => t.columnId == columnId && t.laneId == laneId)
  }

  /** The cell views keep list order too. */
  lemma CellTasksInOrder(a: seq<Task>, b: seq<Task>, columnId: string, laneId: string)
    ensures CellTasks(a + b, columnId, laneId) == CellTasks(a, columnId, laneId) + CellTasks(b, columnId, laneId)
  {
    FilterAppend(a, b, (t: Task) => t.columnId == columnId && t.laneId == laneId);
  }

  /** No task is both in the backlog view and in a cell of a grid column. */
  lemma BacklogNeverInGrid(ts: seq<Task>, cs: seq<Column>, c: Column, laneId: string, t: Task)
    requires c in MainGridColumns(cs)
    requires t in CellTasks(ts, c.id, laneId)
    ensures t !in BacklogTasks(ts)
  {
  }

  /** A task is shown in at most one cell. */
  lemma AtMostOneCell(ts: seq<Task>, t: Task, c1: string, l1: string, c2: string, l2: string)
    requires t in CellTasks(ts, c1, l1) && t in CellTasks(ts, c2, l2)
    ensures c1 == c2 && l1 == l2
  {
  }

  /**
   * After a backlog drop the task shows in the backlog whatever lane it kept,
   * and in no grid cell.
   */
  lemma BacklogDropShowsInBacklog(ts: seq<Task>, i: nat, cs: seq<Column>, c: Column, laneId: string)
    requires i < |ts|
    requires c in MainGridColumns(cs)
    ensures Moved(ts, ts[i].id, BacklogId, None)[i] in BacklogTasks(Moved(ts, ts[i].id, BacklogId, None))
    ensures Moved(ts, ts[i].id, BacklogId, None)[i] !in CellTasks(Moved(ts, ts[i].id, BacklogId, None), c.id, laneId)
    ensures Moved(ts, ts[i].id, BacklogId, None)[i].laneId == ts[i].laneId
  {
  }

  /** The shipped configuration has a backlog column, the first one. */
  lemma InitialBacklogColumn()
    ensures BacklogColumn(InitialColumns) == Some(InitialColumns[0])
  {
  }

  /** Removing backlog from the shipped columns leaves the five grid columns, in order. */
  lemma InitialGridColumns()
    ensures ColumnIds(MainGridColumns(InitialColumns)) == ["todo", "inprogress", "review", "clientreview", "done"]
  {
    assert !IsGridColumn(InitialColumns[0]);
    assert Filter(InitialColumns, IsGridColumn) == Filter(InitialColumns[1..], IsGridColumn);
    LaterColumnsAreGrid();
    LaterColumnIds();
  }

  lemma LaterColumnsAreGrid()
    ensures Filter(InitialColumns[1..], IsGridColumn) == InitialColumns[1..]
  {
    var rest := InitialColumns[1..];
    assert forall i :: 0 <= i < |rest| ==> |rest[i].id| != |BacklogId|;
    FilterAll(rest, IsGridColumn);
  }

  lemma LaterColumnIds()
    ensures ColumnIds(InitialColumns[1..]) == ["todo", "inprogress", "review", "clientreview", "done"]
  {
    var rest := InitialColumns[1..];
    var expected := ["todo", "inprogress", "review", "clientreview", "done"];
    assert forall i :: 0 <= i < |rest| ==> rest[i].id == expected[i];
  }

  class Board {
    const columns: seq<Column>
    const lanes: seq<Lane>
    var tasks: seq<Task>

    /** The board starts from the shipped columns, lanes and seed tasks. */
    constructor()
      ensures columns == InitialColumns && lanes == InitialLanes && tasks == InitialTasks
    {
      columns := InitialColumns;
      lanes := InitialLanes;
      tasks := InitialTasks;
    }

    method MoveTask(taskId: string, targetColumnId: string, targetLaneId: Option<string>)
      modifies this
      ensures tasks == Moved(old(tasks), taskId, targetColumnId, targetLaneId)
    {
      tasks := Moved(tasks, taskId, targetColumnId, targetLaneId);
    }

    method CreateTask(columnId: string, laneId: string, now: nat, suffix: string)
      modifies this
      ensures tasks == old(tasks) + [NewTask(now, suffix, columnId, laneId)]
    {
      tasks := tasks + [NewTask(now, suffix, columnId, laneId)];
    }

    method CreateBacklogTask(now: nat, suffix: string)
      modifies this
      ensures tasks == old(tasks) + [NewBacklogTask(now, suffix)]
    {
      tasks := tasks + [NewBacklogTask(now, suffix)];
    }

    method UpdateTaskContent(taskId: string, newContent: string)
      modifies this
      ensures tasks == ContentUpdated(old(tasks), taskId, newContent)
    {
      tasks := ContentUpdated(tasks, taskId, newContent);
    }

    /** `handleDropOnCell`: moves the dragged task to the cell, or does nothing. */
    method HandleDropOnCell(data: map<string, string>, columnId: Option<string>, laneId: Option<string>)
      modifies this
      ensures var taskId := GetData(data, DragKey);
        if CellDropAccepted(taskId, columnId, laneId)
        then tasks == Moved(old(tasks), taskId, columnId.value, Some(laneId.value))
        else tasks == old(tasks)
    {
      var taskId := GetData(data, DragKey);
      if CellDropAccepted(taskId, columnId, laneId) {
        MoveTask(taskId, columnId.value, Some(laneId.value));
      }
    }

    /** `handleDropOnBacklog`: moves the dragged task to the column, keeping its lane, or does nothing. */
    method HandleDropOnBacklog(data: map<string, string>, columnId: Option<string>)
      modifies this
      ensures var taskId := GetData(data, DragKey);
        if BacklogDropAccepted(taskId, columnId)
        then tasks == Moved(old(tasks), taskId, columnId.value, None)
        else tasks == old(tasks)
    {
      var taskId := GetData(data, DragKey);
      if BacklogDropAccepted(taskId, columnId) {
        MoveTask(taskId, columnId.value, None);
      }
    }
  }
}
