/** The task, column and lane records of the board (src/types.ts). */
module Types {
  import opened Wrappers
  import opened Strings

  datatype Priority = Low | Medium | High

  /** A card on the board; the four optional fields are `Option`s. */
  datatype Task = Task(
    id: string,
    content: string,
    columnId: string,
    laneId: string,
    priority: Option<Priority>,
    tags: Option<seq<string>>,
    dueDate: Option<string>,
    color: Option<string>)

  datatype Column = Column(id: string, title: string)

  datatype Lane = Lane(id: string, title: string)

  /** The id of the column shown beside the grid rather than in it. */
  const BacklogId: string := "backlog"

  /** Ids minted on the client carry this prefix; ids from the store never do. */
  const TemporaryPrefix: string := "task-"

  /** `id.startsWith('task-')`: the id begins with the prefix, so in particular it is not empty. */
  predicate IsTemporary(id: string): (ok: bool)
    ensures ok <==> |id| >= |TemporaryPrefix| && id[..|TemporaryPrefix|] == TemporaryPrefix
    ensures ok ==> id != ""
  {
    StartsWith(id, TemporaryPrefix)
  }

  /** A JavaScript string value is truthy when it is present and not empty. */
  predicate Truthy(s: Option<string>) {
    s.Some? && s.value != ""
  }

  /** `value || undefined` for a string field: only a truthy value survives, unchanged. */
  function OrUndefined(s: Option<string>): (r: Option<string>)
    ensures r.None? <==> !Truthy(s)
    ensures r.Some? ==> r == s
  {
    if Truthy(s) then s else None
  }

  /** No string occurs twice in `s`. */
  predicate Distinct(s: seq<string>) {
    forall i, j :: 0 <= i < j < |s| ==> s[i] != s[j]
  }

  function ColumnIds(cs: seq<Column>): (r: seq<string>)
    ensures |r| == |cs| && forall i :: 0 <= i < |cs| ==> r[i] == cs[i].id
  {
    if cs == [] then [] else [cs[0].id] + ColumnIds(cs[1..])
  }

  function LaneIds(ls: seq<Lane>): (r: seq<string>)
    ensures |r| == |ls| && forall i :: 0 <= i < |ls| ==> r[i] == ls[i].id
  {
    if ls == [] then [] else [ls[0].id] + LaneIds(ls[1..])
  }

  /** No two tasks of `ts` share an id. */
  predicate DistinctIds(ts: seq<Task>) {
    forall i, j :: 0 <= i < j < |ts| ==> ts[i].id != ts[j].id
  }

  /** The ids of the tasks of `ts`. */
  function IdSet(ts: seq<Task>): set<string> {
    set i | 0 <= i < |ts| :: ts[i].id
  }

  /** Appending a task with an unused id keeps the ids distinct and adds that id. */
  lemma AppendFresh(ts: seq<Task>, t: Task)
    requires DistinctIds(ts) && t.id !in IdSet(ts)
    ensures DistinctIds(ts + [t]) && IdSet(ts + [t]) == IdSet(ts) + {t.id}
  {
    var r := ts + [t];
    assert forall i :: 0 <= i < |ts| ==> r[i] == ts[i];
    assert forall i :: 0 <= i < |ts| ==> ts[i].id in IdSet(ts);
    assert r[|ts|] == t;
    forall x | x in IdSet(r) ensures x in IdSet(ts) + {t.id} {
      var i :| 0 <= i < |r| && r[i].id == x;
      if i < |ts| {
        assert x == ts[i].id;
      }
    }
    forall x | x in IdSet(ts) + {t.id} ensures x in IdSet(r) {
      if x == t.id {
        assert r[|ts|].id == x;
      } else {
        var i :| 0 <= i < |ts| && ts[i].id == x;
        assert r[i].id == x;
      }
    }
  }

  /** Two tasks agree on everything except their placement. */
  predicate SameExceptPlacement(a: Task, b: Task) {
    a.id == b.id && a.content == b.content && a.priority == b.priority
    && a.tags == b.tags && a.dueDate == b.dueDate && a.color == b.color
  }

  /** Two tasks agree on everything except their content. */
  predicate SameExceptContent(a: Task, b: Task) {
    a.id == b.id && a.columnId == b.columnId && a.laneId == b.laneId && a.priority == b.priority
    && a.tags == b.tags && a.dueDate == b.dueDate && a.color == b.color
  }
}
