/**
 * The persistence calls over the remote `tasks` table (src/lib/taskService.ts).
 * The table is a map from primary key to row. Each remote call is given
 * `fails`, standing for a transport or store error on that call; an insert is
 * given the key the store would mint.
 */
module TaskService {
  import opened Wrappers
  import opened Types
  import opened Supabase

  /** `task.id && !task.id.startsWith('task-')`: the save updates an existing row. */
  predicate UsesUpdatePath(id: string): (ok: bool)
    ensures ok ==> id != "" && !(|id| >= |TemporaryPrefix| && id[..|TemporaryPrefix|] == TemporaryPrefix)
    ensures !ok ==> id == "" || IsTemporary(id)
  {
    id != "" && !IsTemporary(id)
  }

  /** The key an insert writes under: the payload's own id if it has one, else the minted one. */
  function InsertKey(d: DbTask, freshId: string): (key: string)
    ensures d.id.Some? ==> key == d.id.value
    ensures d.id.None? ==> key == freshId
  {
    d.id.GetOr(freshId)
  }

  /** The update path is taken exactly for non-empty permanent ids; it never needs a minted key. */
  lemma UpdatePathCarriesId(t: Task)
    ensures UsesUpdatePath(t.id) <==> (t.id != "" && MapTaskToDbTask(t).id.Some?)
    ensures !UsesUpdatePath(t.id) ==> (t.id == "" || MapTaskToDbTask(t).id.None?)
  {
  }

  /** A temporary task is inserted under the minted key; any other id is kept as the key. */
  lemma InsertKeyOfTask(t: Task, freshId: string)
    ensures IsTemporary(t.id) ==> InsertKey(MapTaskToDbTask(t), freshId) == freshId
    ensures !IsTemporary(t.id) ==> InsertKey(MapTaskToDbTask(t), freshId) == t.id
  {
  }

  /** Every task of `ts` is the mapping of the row stored under its id. */
  predicate MappedFromRows(ts: seq<Task>, rows: map<string, DbRow>) {
    forall i :: 0 <= i < |ts| ==> ts[i].id in rows && ts[i] == MapDbTaskToTask(rows[ts[i].id])
  }

  /** Appending the mapping of a stored row keeps every task mapped from its row. */
  lemma AppendMapped(ts: seq<Task>, t: Task, rows: map<string, DbRow>)
    requires MappedFromRows(ts, rows) && t.id in rows && t == MapDbTaskToTask(rows[t.id])
    ensures MappedFromRows(ts + [t], rows)
  {
    var r := ts + [t];
    forall i | 0 <= i < |r| ensures r[i].id in rows && r[i] == MapDbTaskToTask(rows[r[i].id]) {
      if i < |ts| {
        assert r[i] == ts[i];
      }
    }
  }

  class TaskStore {
    var rows: map<string, DbRow>

    /** Every row is stored under its own id. */
    predicate Valid()
      reads this
    {
      forall k :: k in rows ==> rows[k].id == k
    }

    constructor(initial: map<string, DbRow>)
      requires forall k :: k in initial ==> initial[k].id == k
      ensures Valid() && rows == initial
    {
      rows := initial;
    }

    /**
     * `getAllTasks`: on error `[]`; otherwise one mapped task per row, in the
     * order the store happens to return them.
     */
    method GetAllTasks(fails: bool) returns (ts: seq<Task>)
      requires Valid()
      ensures fails ==> ts == []
      ensures !fails ==> |ts| == |rows|
      ensures MappedFromRows(ts, rows)
      ensures !fails ==> IdSet(ts) == rows.Keys
      ensures DistinctIds(ts)
    {
      ts := [];
      if fails {
        return;
      }
      var pending := rows.Keys;
      while pending != {}
        invariant pending <= rows.Keys
        invariant |ts| + |pending| == |rows|
        invariant MappedFromRows(ts, rows)
        invariant IdSet(ts) == rows.Keys - pending
        invariant DistinctIds(ts)
        decreases |pending|
      {
        var k :| k in pending;
        var t := MapDbTaskToTask(rows[k]);
        assert t.id == k;
        AppendFresh(ts, t);
        AppendMapped(ts, t, rows);
        ts := ts + [t];
        pending := pending - {k};
      }
    }

    /**
     * `saveTask`: an update of the row with the task's own id, or an insert.
     * Any store error, and an update of a missing row (`.single()` needs
     * exactly one row), gives `None` and leaves the table as it was.
     */
    method SaveTask(task: Task, fails: bool, freshId: string) returns (r: Option<Task>)
      requires Valid()
      modifies this
      ensures Valid()
      ensures UsesUpdatePath(task.id) ==>
        if fails || task.id !in old(rows) then r == None && rows == old(rows)
        else rows == old(rows)[task.id := StoredRow(MapTaskToDbTask(task), task.id)]
             && r == Some(WithDefaultTags(task))
      ensures !UsesUpdatePath(task.id) ==>
        var key := InsertKey(MapTaskToDbTask(task), freshId);
        if fails || key in old(rows) then r == None && rows == old(rows)
        else rows == old(rows)[key := StoredRow(MapTaskToDbTask(task), key)]
             && r == Some(WithDefaultTags(task).(id := key))
    {
      var payload := MapTaskToDbTask(task);
      var key := if UsesUpdatePath(task.id) then task.id else InsertKey(payload, freshId);
      var exists_ := key in rows;
      if fails || (UsesUpdatePath(task.id) && !exists_) || (!UsesUpdatePath(task.id) && exists_) {
        r := None;
        return;
      }
      rows := rows[key := StoredRow(payload, key)];
      RoundTrip(task, key);
      if UsesUpdatePath(task.id) {
        RoundTripPermanent(task);
      }
      r := Some(MapDbTaskToTask(rows[key]));
    }

    /**
     * `moveTask`: a temporary id returns `false` without touching the store;
     * otherwise only `column_id` and `lane_id` of that row change (a missing
     * row is no error and changes nothing).
     */
    method MoveTask(taskId: string, columnId: string, laneId: string, fails: bool) returns (ok: bool)
      requires Valid()
      modifies this
      ensures Valid()
      ensures IsTemporary(taskId) ==> !ok && rows == old(rows)
      ensures !IsTemporary(taskId) && fails ==> !ok && rows == old(rows)
      ensures !IsTemporary(taskId) && !fails ==>
        ok && rows == if taskId in old(rows)
                      then old(rows)[taskId := old(rows)[taskId].(column_id := columnId, lane_id := laneId)]
                      else old(rows)
    {
      if IsTemporary(taskId) {
        return false;
      }
      if fails {
        return false;
      }
      if taskId in rows {
        rows := rows[taskId := rows[taskId].(column_id := columnId, lane_id := laneId)];
      }
      ok := true;
    }

    /**
     * `deleteTask`: a temporary id returns `true` without touching the store;
     * otherwise the row with that id is removed.
     */
    method DeleteTask(taskId: string, fails: bool) returns (ok: bool)
      requires Valid()
      modifies this
      ensures Valid()
      ensures IsTemporary(taskId) ==> ok && rows == old(rows)
      ensures !IsTemporary(taskId) && fails ==> !ok && rows == old(rows)
      ensures !IsTemporary(taskId) && !fails ==> ok && rows == old(rows) - {taskId}
    {
      if IsTemporary(taskId) {
        return true;
      }
      if fails {
        return false;
      }
      rows := rows - {taskId};
      ok := true;
    }
  }

  /**
   * The asymmetry between the two guards: on the same temporary id a move
   * reports failure while a delete reports success, and neither writes.
   */
  method TemporaryGuards(store: TaskStore, id: string, columnId: string, laneId: string, moveFails: bool, deleteFails: bool)
    returns (moved: bool, deleted: bool)
    requires store.Valid() && IsTemporary(id)
    modifies store
    ensures !moved && deleted && store.rows == old(store.rows)
  {
    moved := store.MoveTask(id, columnId, laneId, moveFails);
    deleted := store.DeleteTask(id, deleteFails);
  }

  /** A second delete of the same id succeeds again and changes nothing more. */
  method DeleteTwice(store: TaskStore, id: string) returns (first: bool, second: bool)
    requires store.Valid()
    modifies store
    ensures first && second
    ensures store.rows == if IsTemporary(id) then old(store.rows) else old(store.rows) - {id}
  {
    first := store.DeleteTask(id, false);
    second := store.DeleteTask(id, false);
  }
}
