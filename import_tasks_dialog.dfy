/**
 * The import dialog (src/components/ImportTasksDialog.tsx): pasted JSON
 * becomes a list of new tasks, or an error message. `JSON.parse` is not
 * modelled; its outcome is the `Parsed` value the dialog is given.
 */
module ImportTasksDialog {
  import opened Wrappers
  import opened Strings
  import opened Types

  /**
   * The fields the mapping reads from one parsed item. A string field
   * that is absent, `null` or not a string is `None`; a priority that is
   * absent or empty is `None`.
   */
  datatype ItemFields = ItemFields(
    content: Option<string>,
    columnId: Option<string>,
    priority: Option<Priority>,
    tags: Option<seq<string>>,
    dueDate: Option<string>,
    color: Option<string>)

  /**
   * One array element. Reading a field of `null` throws; any other JSON
   * value (an object, or a number, string or array without such fields)
   * is a record.
   */
  datatype Item = NullItem | Record(fields: ItemFields)

  /** What `JSON.parse` made of the input. */
  datatype Parsed = ParseFailure | NotArray | Items(items: seq<Item>)

  const DefaultContent: string := "Task senza contenuto"
  const DefaultColumnId: string := "todo"
  const ImportPrefix: string := "task-import-"
  const NotArrayMessage: string := "Il formato non è valido. È necessario un array di task."
  const ParseErrorMessage: string := "Errore nel parsing del JSON. Verifica il formato."

  /** `value || fallback` for a string field. */
  function OrElse(s: Option<string>, fallback: string): string {
    if Truthy(s) then s.value else fallback
  }

  /** The id of the item at `index`, its clock reading being `now`. Import ids are temporary. */
  function ImportId(now: nat, index: nat): (id: string)
    ensures IsTemporary(id)
  {
    assert StartsWith(ImportPrefix, TemporaryPrefix);
    StartsWithLonger(Decimal(now) + "-" + Decimal(index), TemporaryPrefix, ImportPrefix);
    assert ImportPrefix + Decimal(now) + "-" + Decimal(index) == ImportPrefix + (Decimal(now) + "-" + Decimal(index));
    ImportPrefix + Decimal(now) + "-" + Decimal(index)
  }

  /**
   * Different indices give different ids, whatever the clock read for each:
   * a decimal has no `-`, so the index is what follows the last `-`.
   */
  lemma ImportIdInjective(now1: nat, i: nat, now2: nat, j: nat)
    requires ImportId(now1, i) == ImportId(now2, j)
    ensures i == j
  {
    DashFreeTail(ImportPrefix + Decimal(now1), Decimal(i), ImportPrefix + Decimal(now2), Decimal(j));
    DecimalInjective(i, j);
  }

  predicate DashFree(s: string) {
    forall k :: 0 <= k < |s| ==> s[k] != '-'
  }

  /** Two strings that each end in `-` and a dash-free tail have the same tail. */
  lemma DashFreeTail(a: string, x: string, b: string, y: string)
    requires a + "-" + x == b + "-" + y
    requires DashFree(x) && DashFree(y)
    ensures x == y
  {
    var s := a + "-" + x;
    assert s[|s| - |x| - 1] == '-';
    assert s[|s| - |y| - 1] == '-';
    assert x == s[|s| - |x|..];
    assert y == s[|s| - |y|..];
  }

  /** The task made from one record: its id, lane `''`, and every field filled or left out, never empty. */
  function ImportItem(f: ItemFields, id: string): (t: Task)
    ensures t.id == id && t.laneId == ""
    ensures t.content != "" && t.columnId != "" && t.priority.Some? && t.tags.Some?
    ensures t.dueDate != Some("") && t.color != Some("")
  {
    Task(id, OrElse(f.content, DefaultContent), OrElse(f.columnId, DefaultColumnId), "",
         Some(f.priority.GetOr(Low)), Some(f.tags.GetOr([])),
         OrUndefined(f.dueDate), OrUndefined(f.color))
  }

  /** Missing or falsy fields take their defaults. */
  lemma ImportItemDefaults(f: ItemFields, id: string)
    ensures var t := ImportItem(f, id);
      t.id == id && t.laneId == ""
      && (!Truthy(f.content) ==> t.content == DefaultContent)
      && (!Truthy(f.columnId) ==> t.columnId == DefaultColumnId)
      && (f.priority.None? ==> t.priority == Some(Low))
      && (f.tags.None? ==> t.tags == Some([]))
      && (!Truthy(f.dueDate) ==> t.dueDate == None)
      && (!Truthy(f.color) ==> t.color == None)
  {
  }

  /** Truthy fields are copied unchanged. */
  lemma ImportItemCopies(f: ItemFields, id: string)
    ensures var t := ImportItem(f, id);
      (Truthy(f.content) ==> t.content == f.content.value)
      && (Truthy(f.columnId) ==> t.columnId == f.columnId.value)
      && (f.priority.Some? ==> t.priority == f.priority)
      && (f.tags.Some? ==> t.tags == f.tags)
      && (Truthy(f.dueDate) ==> t.dueDate == f.dueDate)
      && (Truthy(f.color) ==> t.color == f.color)
  {
  }

  /**
   * `items.map((item, index) => ...)` for the items from position `start`
   * on, `stamps[k]` being what `Date.now()` returned while item `k` was
   * mapped: `None` when some item is `null` (the mapping throws), otherwise
   * one task per item, in order, with the item's own index in its id.
   */
  function MapItems(items: seq<Item>, stamps: seq<nat>, start: nat): (r: Option<seq<Task>>)
    requires |stamps| == |items|
    ensures r.None? <==> exists k :: 0 <= k < |items| && items[k] == NullItem
    ensures r.Some? ==> |r.value| == |items|
    ensures r.Some? ==> forall k :: 0 <= k < |items| ==>
      items[k].Record? && r.value[k] == ImportItem(items[k].fields, ImportId(stamps[k], start + k))
  {
    if items == [] then Some([])
    else
      match items[0]
      case NullItem => None
      case Record(f) =>
        var rest := MapItems(items[1..], stamps[1..], start + 1);
        assert forall k :: 1 <= k < |items| ==> items[k] == items[1..][k - 1] && stamps[k] == stamps[1..][k - 1];
        if rest.None? then None
        else Some([ImportItem(f, ImportId(stamps[0], start))] + rest.value)
  }

  /** The tasks an import of `items` hands to `onImport`, if the mapping succeeds. */
  function ImportedTasks(items: seq<Item>, stamps: seq<nat>): Option<seq<Task>>
    requires |stamps| == |items|
  {
    MapItems(items, stamps, 0)
  }

  /** Imported ids are pairwise distinct and all temporary, even when the clock moves during the import. */
  lemma ImportedIds(items: seq<Item>, stamps: seq<nat>)
    requires |stamps| == |items| && ImportedTasks(items, stamps).Some?
    ensures DistinctIds(ImportedTasks(items, stamps).value)
    ensures forall k :: 0 <= k < |items| ==> IsTemporary(ImportedTasks(items, stamps).value[k].id)
  {
    var ts := ImportedTasks(items, stamps).value;
    forall i, j | 0 <= i < j < |ts| ensures ts[i].id != ts[j].id {
      if ts[i].id == ts[j].id {
        ImportIdInjective(stamps[i], i, stamps[j], j);
      }
    }
  }

  /** Every imported task is laneless; the parent component is left to place it. */
  lemma ImportedLaneless(items: seq<Item>, stamps: seq<nat>)
    requires |stamps| == |items| && ImportedTasks(items, stamps).Some?
    ensures forall k :: 0 <= k < |items| ==> ImportedTasks(items, stamps).value[k].laneId == ""
  {
  }

  /** An array holding a `null` item imports nothing. */
  lemma NullItemImportsNothing(items: seq<Item>, stamps: seq<nat>, k: nat)
    requires |stamps| == |items| && k < |items| && items[k] == NullItem
    ensures ImportedTasks(items, stamps).None?
  {
  }

  /** The dialog's own state: the text area and the error banner. */
  class ImportForm {
    var jsonInput: string
    var error: Option<string>

    constructor()
      ensures jsonInput == "" && error == None
    {
      jsonInput := "";
      error := None;
    }

    /**
     * `handleImport`, given what `JSON.parse(jsonInput)` produced and, for
     * an array, one clock reading per item. The result is what is passed to
     * `onImport`; `None` means it is not called.
     */
    method HandleImport(parsed: Parsed, stamps: seq<nat>) returns (imported: Option<seq<Task>>)
      requires parsed.Items? ==> |stamps| == |parsed.items|
      modifies this
      ensures parsed.NotArray? ==>
        imported == None && error == Some(NotArrayMessage) && jsonInput == old(jsonInput)
      ensures parsed.ParseFailure? ==>
        imported == None && error == Some(ParseErrorMessage) && jsonInput == old(jsonInput)
      ensures parsed.Items? ==> imported == ImportedTasks(parsed.items, stamps)
      ensures parsed.Items? && imported.Some? ==> jsonInput == "" && error == None
      ensures parsed.Items? && imported.None? ==>
        error == Some(ParseErrorMessage) && jsonInput == old(jsonInput)
    {
      match parsed
      case ParseFailure =>
        error := Some(ParseErrorMessage);
        imported := None;
      case NotArray =>
        error := Some(NotArrayMessage);
        imported := None;
      case Items(items) =>
        imported := ImportedTasks(items, stamps);
        if imported.Some? {
          jsonInput := "";
          error := None;
        } else {
          error := Some(ParseErrorMessage);
        }
    }
  }
}
