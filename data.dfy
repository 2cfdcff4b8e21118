/** The board's fixed configuration and its seed tasks (src/data.ts). */
module Data {
  import opened Wrappers
  import opened Strings
  import opened Types

  const InitialColumns: seq<Column> := [
    Column("backlog", "DA FARE NON URGENTI"),
    Column("todo", "Da Fare"),
    Column("inprogress", "In Corso"),
    Column("review", "Pronto per Revisione"),
    Column("clientreview", "Revisione Cliente"),
    Column("done", "Fatto")
  ]

  const InitialLanes: seq<Lane> := [
    Lane("ideation", "Ideazione"),
    Lane("visual", "Visual (video, grafica, foto)"),
    Lane("copy", "Copy"),
    Lane("scheduling", "Programmazione")
  ]

  const InitialTasks: seq<Task> := [
    Task("task-1", "Brainstorm campagne Q4", "backlog", "ideation", Some(Medium), None, None, None),
    Task("task-2", "Creare moodboard video prodotto", "todo", "visual", Some(High), Some(["video", "prodotto-x"]), None, None),
    Task("task-3", "Scrivere copy post blog lancio", "inprogress", "copy", None, None, Some("2024-08-15"), None),
    Task("task-4", "Pianificare post social media settimana prossima", "todo", "scheduling", None, None, None, None),
    Task("task-5", "Revisionare bozza grafica evento", "review", "visual", Some(High), None, None, None),
    Task("task-6", "Finalizzare script video testimonianza", "clientreview", "copy", None, None, None, None),
    Task("task-7", "Analizzare performance campagna email", "done", "ideation", None, Some(["analisi", "email"]), None, None),
    Task("task-8", "Shooting fotografico nuovi arrivi", "inprogress", "visual", None, None, Some("2024-08-10"), None)
  ]

  /** Column ids are distinct, and the backlog column is configured, first. */
  lemma ColumnsWellFormed()
    ensures Distinct(ColumnIds(InitialColumns))
    ensures |InitialColumns| > 0 && InitialColumns[0].id == BacklogId
  {
    var ids := ColumnIds(InitialColumns);
    forall i, j | 0 <= i < j < |ids| ensures ids[i] != ids[j] {
      ColumnInitialAt(i);
      ColumnInitialAt(j);
    }
  }

  /** Column `k`'s id starts with the `k`-th letter of `btircd`. */
  lemma ColumnInitialAt(k: nat)
    requires k < |InitialColumns|
    ensures |InitialColumns[k].id| > 0 && InitialColumns[k].id[0] == "btircd"[k]
  {
  }

  /** Lane ids are distinct. */
  lemma LanesWellFormed()
    ensures Distinct(LaneIds(InitialLanes))
  {
    var ids := LaneIds(InitialLanes);
    DistinctAt(ids, 0);
  }

  /** Every seed task sits in a configured column and a configured lane (task-1, in backlog, too). */
  lemma SeedPlacementsConfigured()
    ensures forall t :: t in InitialTasks ==> t.columnId in ColumnIds(InitialColumns)
    ensures forall t :: t in InitialTasks ==> t.laneId in LaneIds(InitialLanes)
  {
    var columns := ColumnIds(InitialColumns);
    var lanes := LaneIds(InitialLanes);
    assert columns == ["backlog", "todo", "inprogress", "review", "clientreview", "done"];
    assert lanes == ["ideation", "visual", "copy", "scheduling"];
    forall t | t in InitialTasks ensures t.columnId in columns && t.laneId in lanes {
      var k :| 0 <= k < |InitialTasks| && InitialTasks[k] == t;
      SeedPlacementAt(k);
    }
  }

  lemma SeedPlacementAt(k: nat)
    requires k < |InitialTasks|
    ensures InitialTasks[k].columnId in ["backlog", "todo", "inprogress", "review", "clientreview", "done"]
    ensures InitialTasks[k].laneId in ["ideation", "visual", "copy", "scheduling"]
  {
  }

  /** Seed ids are distinct and all temporary, so none of them is ever updated in the store. */
  lemma SeedIdsTemporary()
    ensures DistinctIds(InitialTasks)
    ensures forall t :: t in InitialTasks ==> IsTemporary(t.id)
  {
    forall i, j | 0 <= i < j < |InitialTasks| ensures InitialTasks[i].id != InitialTasks[j].id {
      SeedIdAt(i);
      SeedIdAt(j);
      assert InitialTasks[i].id[5] != InitialTasks[j].id[5];
    }
    forall t | t in InitialTasks ensures IsTemporary(t.id) {
      var k :| 0 <= k < |InitialTasks| && InitialTasks[k] == t;
      SeedIdAt(k);
      StartsWithAppend(TemporaryPrefix, [t.id[5]]);
    }
  }

  /** Seed task `k` has id `task-` followed by the digit `k + 1`. */
  lemma SeedIdAt(k: nat)
    requires k < |InitialTasks|
    ensures InitialTasks[k].id == TemporaryPrefix + ["12345678"[k]]
  {
  }

  /** Strings that all differ at index `n` are distinct. */
  lemma DistinctAt(s: seq<string>, n: nat)
    requires forall i :: 0 <= i < |s| ==> |s[i]| > n
    requires forall i, j :: 0 <= i < j < |s| ==> s[i][n] != s[j][n]
    ensures Distinct(s)
  {
  }
}
