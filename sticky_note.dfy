/**
 * What a card contributes besides rendering (src/components/StickyNote.tsx):
 * the drag payload it sets, its priority colour classes, and the empty
 * branch of its date formatting.
 */
module StickyNote {
  import opened Wrappers
  import opened Types

  /** The drag-data key under which a card puts its task id, and which the drop targets read. */
  const DragKey: string := "taskId"

  /** The drag data after `handleDragStart`: the task id under `DragKey`. */
  function DragStartData(task: Task): (data: map<string, string>)
    ensures DragKey in data && data[DragKey] == task.id
    ensures data.Keys == {DragKey}
  {
    map[DragKey := task.id]
  }

  /** `dataTransfer.getData(key)`: the stored string, or `""` when nothing is stored. */
  function GetData(data: map<string, string>, key: string): (r: string)
    ensures key in data ==> r == data[key]
    ensures key !in data ==> r == ""
  {
    if key in data then data[key] else ""
  }

  /** Whatever a drop target reads with `DragKey` is the id of the dragged card. */
  lemma DragDataRoundTrip(task: Task)
    ensures GetData(DragStartData(task), DragKey) == task.id
  {
  }

  const HighClasses: string := "bg-red-100 border-red-300 hover:bg-red-200"
  const MediumClasses: string := "bg-yellow-100 border-yellow-300 hover:bg-yellow-200"
  const LowClasses: string := "bg-green-100 border-green-300 hover:bg-green-200"
  const DefaultClasses: string := "bg-white border-gray-300 hover:bg-gray-50"

  /** `getPriorityColor`: red for high, yellow for medium, green for low, white when unset. */
  function PriorityColor(p: Option<Priority>): (classes: string)
    ensures p == Some(High) ==> classes == HighClasses
    ensures p == Some(Medium) ==> classes == MediumClasses
    ensures p == Some(Low) ==> classes == LowClasses
    ensures p == None ==> classes == DefaultClasses
  {
    match p
    case Some(High) => HighClasses
    case Some(Medium) => MediumClasses
    case Some(Low) => LowClasses
    case None => DefaultClasses
  }

  /** Different priorities (unset included) never share a colour. */
  lemma PriorityColorsDistinct(p: Option<Priority>, q: Option<Priority>)
    requires p != q
    ensures PriorityColor(p) != PriorityColor(q)
  {
    assert |HighClasses| == 42 && |MediumClasses| == 51;
    assert |LowClasses| == 48 && |DefaultClasses| == 41;
  }

  /**
   * `formatDate`: `""` for an absent or empty date; otherwise the locale
   * rendering `localized`, or the date itself when formatting throws
   * (`localized == None`).
   */
  function FormatDate(dateString: Option<string>, localized: Option<string>): (r: string)
    ensures (dateString == None || dateString == Some("")) ==> r == ""
    ensures dateString.Some? && dateString.value != "" ==> r == localized.GetOr(dateString.value)
  {
    if dateString == None || dateString == Some("") then ""
    else localized.GetOr(dateString.value)
  }
}
