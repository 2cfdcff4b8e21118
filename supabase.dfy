/**
 * The two field renamings between the in-memory task and the row of the
 * remote `tasks` table (src/lib/supabase.ts). The client connection and its
 * environment checks are not modelled.
 */
module Supabase {
  import opened Wrappers
  import opened Types

  /**
   * The object `mapTaskToDbTask` builds: `id` is absent when the store is
   * to mint one, and `tags` may be absent.
   */
  datatype DbTask = DbTask(
    id: Option<string>,
    content: string,
    column_id: string,
    lane_id: string,
    priority: Option<Priority>,
    tags: Option<seq<string>>,
    due_date: Option<string>,
    color: Option<string>)

  /** A row as the store holds and returns it: it always has its primary key; `tags` may be null. */
  datatype DbRow = DbRow(
    id: string,
    content: string,
    column_id: string,
    lane_id: string,
    priority: Option<Priority>,
    tags: Option<seq<string>>,
    due_date: Option<string>,
    color: Option<string>)

  /** `tags || []`: an absent tag list reads as the empty one. */
  function TagsOrEmpty(tags: Option<seq<string>>): (r: seq<string>)
    ensures tags.Some? ==> r == tags.value
    ensures tags.None? ==> r == []
  {
    tags.GetOr([])
  }

  /** Row to task: each snake_case field lands in its camelCase field, tags never absent. */
  function MapDbTaskToTask(row: DbRow): (t: Task)
    ensures t.id == row.id && t.content == row.content
    ensures t.columnId == row.column_id && t.laneId == row.lane_id
    ensures t.priority == row.priority && t.dueDate == row.due_date && t.color == row.color
    ensures t.tags.Some? && t.tags.value == TagsOrEmpty(row.tags)
  {
    Task(row.id, row.content, row.column_id, row.lane_id, row.priority,
         Some(TagsOrEmpty(row.tags)), row.due_date, row.color)
  }

  /** Task to row payload: temporary ids are dropped so the store mints one; the rest is renamed. */
  function MapTaskToDbTask(t: Task): (d: DbTask)
    ensures d.id.None? <==> IsTemporary(t.id)
    ensures d.id.Some? ==> d.id.value == t.id
    ensures d.content == t.content && d.column_id == t.columnId && d.lane_id == t.laneId
    ensures d.priority == t.priority && d.tags == t.tags && d.due_date == t.dueDate && d.color == t.color
  {
    DbTask(if IsTemporary(t.id) then None else Some(t.id), t.content, t.columnId, t.laneId,
           t.priority, t.tags, t.dueDate, t.color)
  }

  /** The row the store holds once it has written `d` under the key `key`. */
  function StoredRow(d: DbTask, key: string): (row: DbRow)
    ensures row.id == key
    ensures row.content == d.content && row.column_id == d.column_id && row.lane_id == d.lane_id
    ensures row.priority == d.priority && row.tags == d.tags && row.due_date == d.due_date && row.color == d.color
  {
    DbRow(key, d.content, d.column_id, d.lane_id, d.priority, d.tags, d.due_date, d.color)
  }

  /** `t` with an absent tag list replaced by the empty one. */
  function WithDefaultTags(t: Task): Task {
    t.(tags := Some(TagsOrEmpty(t.tags)))
  }

  /**
   * Writing a task and reading its row back gives the task again, under the
   * key it was written with; only absent tags come back as `[]`.
   */
  lemma RoundTrip(t: Task, key: string)
    ensures MapDbTaskToTask(StoredRow(MapTaskToDbTask(t), key)) == WithDefaultTags(t).(id := key)
  {
  }

  /** For a permanent id the payload carries the id itself, so the round trip is exact up to tags. */
  lemma RoundTripPermanent(t: Task)
    requires !IsTemporary(t.id)
    ensures MapTaskToDbTask(t).id == Some(t.id)
    ensures MapDbTaskToTask(StoredRow(MapTaskToDbTask(t), t.id)) == WithDefaultTags(t)
    ensures t.tags.Some? ==> MapDbTaskToTask(StoredRow(MapTaskToDbTask(t), t.id)) == t
  {
    RoundTrip(t, t.id);
  }

  /** Reading a row and writing it back reproduces the row, with null tags stored as `[]`. */
  lemma RowRoundTrip(row: DbRow)
    requires !IsTemporary(row.id)
    ensures MapTaskToDbTask(MapDbTaskToTask(row)).id == Some(row.id)
    ensures StoredRow(MapTaskToDbTask(MapDbTaskToTask(row)), row.id) == row.(tags := Some(TagsOrEmpty(row.tags)))
  {
  }
}
