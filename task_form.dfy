/** The task form's handlers (src/renderer/src/components/TaskForm.jsx): editing
    the rows of the multi-task mode and validating what is submitted. The
    `onSubmit` callback is modelled by returning, in call order, the tasks it
    receives; `alert` by returning its text. */
module TaskForm {
  import opened Options
  import opened Tasks
  import Text
  import Seqs

  /** One row of the form: `{ name, type, command }`. */
  datatype Row = Row(name: string, kind: string, command: string)

  const DefaultRow := Row("", "app", "")

  datatype Field = NameField | TypeField | CommandField

  /** `{ ...row, [field]: value }`. */
  function SetField(row: Row, field: Field, value: string): Row {
    match field
    case NameField => row.(name := value)
    case TypeField => row.(kind := value)
    case CommandField => row.(command := value)
  }

  /** `handleMultiTaskChange(index, field, value)`: copy the rows into a fresh
      array and overwrite row `index` with that field changed. The form calls
      it only with the index of a row it shows. */
  method HandleMultiTaskChange(multiTasks: seq<Row>, index: nat, field: Field, value: string)
    returns (updatedTasks: seq<Row>)
    requires index < |multiTasks|
    ensures |updatedTasks| == |multiTasks|
    ensures updatedTasks[index] == SetField(multiTasks[index], field, value)
    ensures forall k :: 0 <= k < |multiTasks| && k != index ==> updatedTasks[k] == multiTasks[k]
  {
    var copy := new Row[|multiTasks|](k requires 0 <= k < |multiTasks| => multiTasks[k]);
    copy[index] := SetField(copy[index], field, value);
    updatedTasks := copy[..];
  }

  /** Changing a field changes only that field of that row. */
  lemma SetFieldOnly(row: Row, field: Field, value: string)
    ensures var r := SetField(row, field, value);
            && (r.name == if field == NameField then value else row.name)
            && (r.kind == if field == TypeField then value else row.kind)
            && (r.command == if field == CommandField then value else row.command)
  {
  }

  /** `addMultiTask()`: one default row appended. */
  function AddMultiTask(multiTasks: seq<Row>): (r: seq<Row>)
    ensures |r| == |multiTasks| + 1 && r[..|multiTasks|] == multiTasks && r[|multiTasks|] == DefaultRow
  {
    multiTasks + [DefaultRow]
  }

  /** `multiTasks.filter((_, i) => i !== index)`. */
  function WithoutIndex(rows: seq<Row>, index: int): (r: seq<Row>)
    ensures 0 <= index < |rows| ==> r == rows[..index] + rows[index + 1..]
    ensures !(0 <= index < |rows|) ==> r == rows
  {
    if rows == [] then []
    else
      var init := rows[..|rows| - 1];
      var last := rows[|rows| - 1];
      assert rows == init + [last];
      if index == |rows| - 1 then init
      else
        assert 0 <= index < |init| ==> init[..index] + init[index + 1..] + [last] == rows[..index] + rows[index + 1..];
        WithoutIndex(init, index) + [last]
  }

  /** `removeMultiTask(index)`: the last remaining row is never removed. */
  function RemoveMultiTask(multiTasks: seq<Row>, index: int): (r: seq<Row>)
    ensures |multiTasks| <= 1 ==> r == multiTasks
    ensures |multiTasks| > 1 && 0 <= index < |multiTasks| ==> |r| == |multiTasks| - 1 >= 1
    ensures |multiTasks| >= 1 ==> |r| >= 1
  {
    if |multiTasks| > 1 then WithoutIndex(multiTasks, index) else multiTasks
  }

  /** `clearMultiTasks()`. */
  function ClearMultiTasks(): (r: seq<Row>)
    ensures |r| == 1 && r[0] == DefaultRow
  {
    [DefaultRow]
  }

  /** The form's state. */
  datatype FormState = FormState(formData: Row, isMultiTaskMode: bool, multiTasks: seq<Row>)

  /** A row the multi-task submit keeps: non-blank name and command. */
  predicate IsValid(row: Row) {
    Text.Trim(row.name) != [] && Text.Trim(row.command) != []
  }

  /** `{ ...row, name: row.name.trim() || unnamed, command: row.command.trim() }`:
      the object handed to `onSubmit`, which has no id. */
  function ToTask(row: Row, unnamed: string): Task {
    var name := Text.Trim(row.name);
    Task(None, if name != [] then name else unnamed, row.kind, Text.Trim(row.command), None, None)
  }

  function ToTasks(rows: seq<Row>, unnamed: string): (r: seq<Task>)
    ensures |r| == |rows|
    ensures forall k :: 0 <= k < |rows| ==> r[k] == ToTask(rows[k], unnamed)
  {
    if rows == [] then [] else ToTasks(rows[..|rows| - 1], unnamed) + [ToTask(rows[|rows| - 1], unnamed)]
  }

  /** What a submit does: the tasks passed to `onSubmit`, the alert shown, and
      the form state afterwards. */
  datatype Submission = Submission(submitted: seq<Task>, alert: Option<string>, form: FormState)

  /** `handleSubmit` as a whole; `unnamed` is the `unnamedTask` translation. */
  function Submit(f: FormState, unnamed: string): Submission {
    if f.isMultiTaskMode then
      var valid := Seqs.Filter(f.multiTasks, IsValid);
      if |valid| == 0 then Submission([], Some("Please add at least one valid task"), f)
      else Submission(ToTasks(valid, unnamed), None, f.(multiTasks := ClearMultiTasks(), isMultiTaskMode := false))
    else if !IsValid(f.formData) then Submission([], Some("Please fill in all fields"), f)
    else Submission([ToTask(f.formData, unnamed)], None, f.(formData := DefaultRow))
  }

  /** The `forEach` of the multi-task submit: one `onSubmit` call per row, in order. */
  method SubmitEach(validTasks: seq<Row>, unnamed: string) returns (submitted: seq<Task>)
    ensures submitted == ToTasks(validTasks, unnamed)
  {
    submitted := [];
    for i := 0 to |validTasks|
      invariant submitted == ToTasks(validTasks[..i], unnamed)
    {
      assert validTasks[..i + 1][..i] == validTasks[..i];
      submitted := submitted + [ToTask(validTasks[i], unnamed)];
    }
    assert validTasks[..|validTasks|] == validTasks;
  }

  /** `handleSubmit(e)`. `unnamed` is `getTranslation('unnamedTask', language)`
      for the form's language. */
  method HandleSubmit(f: FormState, unnamed: string) returns (r: Submission)
    ensures r == Submit(f, unnamed)
  {
    if f.isMultiTaskMode {
      var validTasks := Seqs.Filter(f.multiTasks, IsValid);
      if |validTasks| == 0 {
        return Submission([], Some("Please add at least one valid task"), f);
      }
      var submitted := SubmitEach(validTasks, unnamed);
      r := Submission(submitted, None, f.(multiTasks := ClearMultiTasks(), isMultiTaskMode := false));
    } else {
      if !IsValid(f.formData) {
        return Submission([], Some("Please fill in all fields"), f);
      }
      r := Submission([ToTask(f.formData, unnamed)], None, f.(formData := DefaultRow));
    }
  }

  /** A valid row's trimmed name is never blank, so the `unnamedTask` fallback
      is never taken. */
  lemma UnnamedNeverUsed(row: Row, unnamed: string)
    requires IsValid(row)
    ensures ToTask(row, unnamed).name == Text.Trim(row.name)
  {
  }

  /** Multi-task submit: refused with an alert and no change when no row is
      valid; otherwise each valid row is submitted once, in order, trimmed and
      without an id, and the form returns to one default row in single mode. */
  lemma MultiSubmitSpec(f: FormState, unnamed: string)
    requires f.isMultiTaskMode
    ensures var s := Submit(f, unnamed);
            var valid := Seqs.Filter(f.multiTasks, IsValid);
            && (s.alert.None? <==> exists k :: 0 <= k < |f.multiTasks| && IsValid(f.multiTasks[k]))
            && (s.alert.Some? ==> s.submitted == [] && s.form == f)
            && (s.alert.None? ==>
                  && |s.submitted| == |valid| <= |f.multiTasks|
                  && (forall k :: 0 <= k < |valid| ==>
                        s.submitted[k] == Task(None, Text.Trim(valid[k].name), valid[k].kind,
                                               Text.Trim(valid[k].command), None, None))
                  && s.form.multiTasks == [DefaultRow] && !s.form.isMultiTaskMode)
  {
    var valid := Seqs.Filter(f.multiTasks, IsValid);
    if exists k :: 0 <= k < |f.multiTasks| && IsValid(f.multiTasks[k]) {
      var k :| 0 <= k < |f.multiTasks| && IsValid(f.multiTasks[k]);
      assert f.multiTasks[k] in valid;
    }
  }

  /** Only rows that are valid are kept, and in their original order. */
  lemma MultiSubmitKeepsValidRows(f: FormState)
    ensures var valid := Seqs.Filter(f.multiTasks, IsValid);
            && (forall k :: 0 <= k < |valid| ==> IsValid(valid[k]))
            && Seqs.IsSubsequence(valid, f.multiTasks)
  {
    Seqs.FilterIsSubsequence(f.multiTasks, IsValid);
  }

  /** Single-task submit: refused with an alert when the trimmed name or command
      is blank; otherwise one trimmed task without an id, and the form is reset. */
  lemma SingleSubmitSpec(f: FormState, unnamed: string)
    requires !f.isMultiTaskMode
    ensures var s := Submit(f, unnamed);
            && (Text.Trim(f.formData.name) == [] || Text.Trim(f.formData.command) == [] ==>
                  s == Submission([], Some("Please fill in all fields"), f))
            && (Text.Trim(f.formData.name) != [] && Text.Trim(f.formData.command) != [] ==>
                  && s.submitted == [Task(None, Text.Trim(f.formData.name), f.formData.kind,
                                          Text.Trim(f.formData.command), None, None)]
                  && s.alert.None? && s.form.formData == DefaultRow)
  {
  }
}
