/**
 * The edit dialog's form state and how a save turns it into a task
 * (src/components/EditTaskDialog.tsx). The dialog widgets are not modelled;
 * `onSave` is the value `HandleSave` returns.
 */
module EditTaskDialog {
  import opened Wrappers
  import opened Strings
  import opened Types

  /** The five form fields; tags are one comma-separated string. */
  datatype Form = Form(content: string, priority: Option<Priority>, dueDate: string, tags: string, color: string)

  const EmptyForm: Form := Form("", None, "", "", "")

  /** The buttons offered below the tag input. */
  const TagSuggestions: seq<string> := ["social", "blog", "email", "urgent", "video"]

  /** Each piece trimmed, empty results dropped. */
  function CleanTags(parts: seq<string>): (r: seq<string>)
    ensures |r| <= |parts|
    ensures forall i :: 0 <= i < |r| ==> r[i] != "" && IsTrimmed(r[i])
  {
    if parts == [] then []
    else
      var t := Trim(parts[0]);
      (if t == "" then [] else [t]) + CleanTags(parts[1..])
  }

  lemma {:induction false} CleanTagsAppend(a: seq<string>, b: seq<string>)
    ensures CleanTags(a + b) == CleanTags(a) + CleanTags(b)
  {
    if a == [] {
      assert a + b == b;
    } else {
      assert (a + b)[0] == a[0];
      assert (a + b)[1..] == a[1..] + b;
      CleanTagsAppend(a[1..], b);
    }
  }

  /** `tags.split(',').map(tag => tag.trim()).filter(tag => tag !== '')`. */
  function ParseTags(text: string): (r: seq<string>)
    ensures forall i :: 0 <= i < |r| ==> r[i] != "" && IsTrimmed(r[i]) && CommaFree(r[i])
  {
    CleanTagsFromCommaFree(Split(text));
    CleanTags(Split(text))
  }

  lemma {:induction false} CleanTagsFromCommaFree(parts: seq<string>)
    requires forall i :: 0 <= i < |parts| ==> CommaFree(parts[i])
    ensures forall i :: 0 <= i < |CleanTags(parts)| ==> CommaFree(CleanTags(parts)[i])
  {
    if parts != [] {
      CleanTagsFromCommaFree(parts[1..]);
      TrimCommaFree(parts[0]);
    }
  }

  /** Parsing keeps comma-split order: the tags before a comma come first. */
  lemma ParseTagsConcat(a: string, b: string)
    ensures ParseTags(a + "," + b) == ParseTags(a) + ParseTags(b)
  {
    SplitConcat(a, b);
    CleanTagsAppend(Split(a), Split(b));
  }

  /** The parsed tags of a single piece: its trimmed text, unless that is empty. */
  lemma ParseTagsSingle(piece: string)
    requires CommaFree(piece)
    ensures ParseTags(piece) == if Trim(piece) == "" then [] else [Trim(piece)]
  {
    SplitCommaFree(piece);
  }

  /** The form the load effect produces: the task's fields, or all empty when there is no task. */
  function LoadedForm(task: Option<Task>): (f: Form)
    ensures task.None? ==> f == EmptyForm
    ensures task.Some? ==>
      f.content == task.value.content && f.priority == task.value.priority
      && f.dueDate == task.value.dueDate.GetOr("") && f.color == task.value.color.GetOr("")
      && f.tags == (if task.value.tags.Some? then Join(task.value.tags.value, ", ") else "")
  {
    match task
    case None => EmptyForm
    case Some(t) =>
      Form(t.content, t.priority, t.dueDate.GetOr(""),
           if t.tags.Some? then Join(t.tags.value, ", ") else "", t.color.GetOr(""))
  }

  /**
   * `handleSave`: nothing without a task; otherwise the task with its id and
   * placement kept, the content trimmed, empty strings and an empty tag list
   * stored as absent.
   */
  function Save(task: Option<Task>, f: Form): (r: Option<Task>)
    ensures task.None? ==> r.None?
    ensures task.Some? ==>
      r.Some? && r.value.id == task.value.id && r.value.columnId == task.value.columnId && r.value.laneId == task.value.laneId
    ensures task.Some? ==>
      r.value.content == Trim(f.content) && r.value.priority == f.priority
      && r.value.dueDate == OrUndefined(Some(f.dueDate)) && r.value.color == OrUndefined(Some(f.color))
      && (r.value.tags.None? <==> ParseTags(f.tags) == [])
      && (r.value.tags.Some? ==> r.value.tags.value == ParseTags(f.tags))
  {
    match task
    case None => None
    case Some(t) =>
      var parsed := ParseTags(f.tags);
      Some(t.(content := Trim(f.content), priority := f.priority, dueDate := OrUndefined(Some(f.dueDate)),
              tags := if |parsed| > 0 then Some(parsed) else None, color := OrUndefined(Some(f.color))))
  }

  /** A well-formed tag: non-empty, trimmed and without commas. */
  predicate WellFormedTag(tag: string) {
    tag != "" && IsTrimmed(tag) && CommaFree(tag)
  }

  /** A task already in the shape a save produces. */
  predicate Normalised(t: Task) {
    IsTrimmed(t.content) && t.dueDate != Some("") && t.color != Some("")
    && (t.tags.Some? ==> |t.tags.value| > 0 && forall i :: 0 <= i < |t.tags.value| ==> WellFormedTag(t.tags.value[i]))
  }

  /** Every saved task is normalised. */
  lemma SaveNormalises(t: Task, f: Form)
    ensures Normalised(Save(Some(t), f).value)
  {
  }

  /** " " before each string. */
  function Spaced(ys: seq<string>): (r: seq<string>)
    ensures |r| == |ys|
    ensures forall i :: 0 <= i < |ys| ==> r[i] == " " + ys[i]
  {
    if ys == [] then [] else [" " + ys[0]] + Spaced(ys[1..])
  }

  /** Splitting a `", "` join at the commas leaves a space in front of every piece but the first. */
  lemma {:induction false} SplitJoinSpaced(xs: seq<string>)
    requires |xs| >= 1
    requires forall i :: 0 <= i < |xs| ==> CommaFree(xs[i])
    ensures Split(Join(xs, ", ")) == [xs[0]] + Spaced(xs[1..])
  {
    if |xs| == 1 {
      SplitCommaFree(xs[0]);
    } else {
      var rest := Join(xs[1..], ", ");
      assert Join(xs, ", ") == xs[0] + "," + (" " + rest);
      SplitConcat(xs[0], " " + rest);
      SplitCommaFree(xs[0]);
      SplitJoinSpaced(xs[1..]);
      SplitPrepend(" ", rest);
      assert xs[1..][1..] == xs[2..];
      assert Spaced(xs[1..]) == [" " + xs[1]] + Spaced(xs[2..]);
    }
  }

  lemma {:induction false} CleanTagsSpaced(ys: seq<string>)
    requires forall i :: 0 <= i < |ys| ==> WellFormedTag(ys[i])
    ensures CleanTags(Spaced(ys)) == ys
  {
    if ys != [] {
      var sp := Spaced(ys);
      TrimLeadingSpace(ys[0]);
      TrimOfTrimmed(ys[0]);
      assert Trim(sp[0]) == ys[0];
      assert sp[1..] == Spaced(ys[1..]);
      CleanTagsSpaced(ys[1..]);
      calc {
        CleanTags(sp);
        [ys[0]] + CleanTags(sp[1..]);
        [ys[0]] + ys[1..];
        ys;
      }
    }
  }

  /** Joining well-formed tags with `", "` and parsing them back gives the same tags. */
  lemma TagsRoundTrip(tags: seq<string>)
    requires |tags| > 0
    requires forall i :: 0 <= i < |tags| ==> WellFormedTag(tags[i])
    ensures ParseTags(Join(tags, ", ")) == tags
  {
    CleanSplitJoin(tags);
  }

  lemma CleanSplitJoin(tags: seq<string>)
    requires |tags| > 0
    requires forall i :: 0 <= i < |tags| ==> WellFormedTag(tags[i])
    ensures CleanTags(Split(Join(tags, ", "))) == tags
  {
    SplitJoinSpaced(tags);
    CleanSpacedTail(tags);
  }

  lemma CleanSpacedTail(tags: seq<string>)
    requires |tags| > 0
    requires forall i :: 0 <= i < |tags| ==> WellFormedTag(tags[i])
    ensures CleanTags([tags[0]] + Spaced(tags[1..])) == tags
  {
    CleanTagsAppend([tags[0]], Spaced(tags[1..]));
    CleanTagsSingle(tags[0]);
    CleanTagsSpaced(tags[1..]);
    assert tags == [tags[0]] + tags[1..];
  }

  lemma CleanTagsSingle(tag: string)
    requires WellFormedTag(tag)
    ensures CleanTags([tag]) == [tag]
  {
    TrimOfTrimmed(tag);
    assert [tag][1..] == [];
  }

  /** Opening a normalised task and saving without edits returns the task unchanged. */
  lemma LoadSaveRoundTrip(t: Task)
    requires Normalised(t)
    ensures Save(Some(t), LoadedForm(Some(t))) == Some(t)
  {
    TrimOfTrimmed(t.content);
    if t.tags.Some? {
      TagsRoundTrip(t.tags.value);
    }
  }

  /** Saving twice without edits is the same as saving once. */
  lemma SaveStable(t: Task, f: Form)
    ensures Save(Some(Save(Some(t), f).value), LoadedForm(Save(Some(t), f))) == Save(Some(t), f)
  {
    SaveNormalises(t, f);
    LoadSaveRoundTrip(Save(Some(t), f).value);
  }

  /** An empty tag list does not survive a load and save: it comes back absent. */
  lemma EmptyTagsBecomeAbsent(t: Task)
    requires t.tags == Some([])
    ensures Save(Some(t), LoadedForm(Some(t))).value.tags == None
  {
    SplitCommaFree("");
  }

  /** `tags.split(',').map(t => t.trim())`, or none for an empty input. */
  function CurrentTags(text: string): (r: seq<string>)
    ensures text == "" ==> r == []
    ensures text != "" ==> |r| == |Split(text)| && forall i :: 0 <= i < |r| ==> r[i] == Trim(Split(text)[i])
  {
    if |text| > 0 then TrimAll(Split(text)) else []
  }

  function TrimAll(parts: seq<string>): (r: seq<string>)
    ensures |r| == |parts| && forall i :: 0 <= i < |parts| ==> r[i] == Trim(parts[i])
  {
    seq(|parts|, i requires 0 <= i < |parts| => Trim(parts[i]))
  }

  /** The tag text after clicking suggestion `s`. */
  function WithSuggestion(text: string, s: string): (r: string)
    ensures s in CurrentTags(text) ==> r == text
    ensures s !in CurrentTags(text) && text == "" ==> r == s
    ensures s !in CurrentTags(text) && text != "" ==> r == text + ", " + s
  {
    if s in CurrentTags(text) then text
    else if |text| > 0 then text + ", " + s
    else s
  }

  /** After the click the suggestion is among the current tags. */
  lemma SuggestionPresent(text: string, s: string)
    requires WellFormedTag(s)
    ensures s in CurrentTags(WithSuggestion(text, s))
  {
    if s !in CurrentTags(text) {
      if text != "" {
        AppendedTagLast(text, s);
      } else {
        TrimOfTrimmed(s);
        SplitCommaFree(s);
        assert CurrentTags(s)[0] == s;
      }
    }
  }

  /** The last current tag of `text, s` is `s`. */
  lemma AppendedTagLast(text: string, s: string)
    requires WellFormedTag(s)
    ensures s in CurrentTags(text + ", " + s)
  {
    var r := text + ", " + s;
    assert r == text + "," + (" " + s);
    SplitConcat(text, " " + s);
    assert CommaFree(" " + s);
    SplitCommaFree(" " + s);
    var parts := Split(r);
    assert parts[|parts| - 1] == " " + s;
    TrimLeadingSpace(s);
    TrimOfTrimmed(s);
    assert CurrentTags(r)[|parts| - 1] == s;
  }

  /** Clicking the same suggestion twice is the same as clicking it once. */
  lemma SuggestionIdempotent(text: string, s: string)
    requires WellFormedTag(s)
    ensures WithSuggestion(WithSuggestion(text, s), s) == WithSuggestion(text, s)
  {
    SuggestionPresent(text, s);
  }

  /** A new suggestion is appended after the tags already typed, which are kept. */
  lemma SuggestionAppends(text: string, s: string)
    requires WellFormedTag(s) && s !in CurrentTags(text)
    ensures ParseTags(WithSuggestion(text, s)) == ParseTags(text) + [s]
  {
    var r := WithSuggestion(text, s);
    if text != "" {
      assert r == text + ", " + s;
      ParseAppendedTag(text, s);
      assert ParseTags(r) == ParseTags(text) + [s];
    } else {
      assert r == s;
      ParseSingleTag(s);
      SplitCommaFree("");
      assert ParseTags(text) == [];
      assert ParseTags(r) == ParseTags(text) + [s];
    }
  }

  lemma ParseSingleTag(s: string)
    requires WellFormedTag(s)
    ensures ParseTags(s) == [s]
  {
    TrimOfTrimmed(s);
    ParseTagsSingle(s);
  }

  lemma ParseAppendedTag(text: string, s: string)
    requires WellFormedTag(s)
    ensures ParseTags(text + ", " + s) == ParseTags(text) + [s]
  {
    TrimOfTrimmed(s);
    assert text + ", " + s == text + "," + (" " + s);
    ParseTagsConcat(text, " " + s);
    assert CommaFree(" " + s) by {
      forall k | 0 <= k < |" " + s| ensures (" " + s)[k] != ',' {
        if k > 0 {
          assert (" " + s)[k] == s[k - 1];
        }
      }
    }
    ParseTagsSingle(" " + s);
    TrimLeadingSpace(s);
  }

  /** The offered suggestions are well-formed tags, so the lemmas above apply to them. */
  lemma SuggestionsWellFormed()
    ensures forall i :: 0 <= i < |TagSuggestions| ==> WellFormedTag(TagSuggestions[i])
  {
  }

  class EditForm {
    var content: string
    var priority: Option<Priority>
    var dueDate: string
    var tags: string
    var color: string

    function Fields(): Form
      reads this
    {
      Form(content, priority, dueDate, tags, color)
    }

    constructor()
      ensures Fields() == EmptyForm
    {
      content, priority, dueDate, tags, color := "", None, "", "", "";
    }

    /** The effect that runs when the `task` prop changes. */
    method LoadTask(task: Option<Task>)
      modifies this
      ensures Fields() == LoadedForm(task)
    {
      match task {
        case None =>
          content, priority, dueDate, tags, color := "", None, "", "", "";
        case Some(t) =>
          content := t.content;
          priority := t.priority;
          dueDate := t.dueDate.GetOr("");
          tags := if t.tags.Some? then Join(t.tags.value, ", ") else "";
          color := t.color.GetOr("");
      }
    }

    /** A click on suggestion button `s`. */
    method AddSuggestion(s: string)
      modifies this`tags
      ensures tags == WithSuggestion(old(tags), s)
    {
      var current := CurrentTags(tags);
      if s !in current {
        tags := if |tags| > 0 then tags + ", " + s else s;
      }
    }

    /** `handleSave`: the task handed to `onSave`, or `None` when there is no task. */
    method HandleSave(task: Option<Task>) returns (saved: Option<Task>)
      ensures saved == Save(task, Fields())
    {
      if task.None? {
        return None;
      }
      var parsed := ParseTags(tags);
      saved := Some(task.value.(content := Trim(content), priority := priority, dueDate := OrUndefined(Some(dueDate)),
                                tags := if |parsed| > 0 then Some(parsed) else None, color := OrUndefined(Some(color))));
    }
  }
}
