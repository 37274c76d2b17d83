/** The task-list handlers of the root component (src/renderer/src/App.jsx):
    `loadTasks`, `saveTasks`, `addTask`, `updateTask` and `deleteTask` as
    transitions of the component's state. How the `saveTasks` IPC call ends is
    the parameter `saved`; `Date.now()` is `now`. */
module App {
  import opened Options
  import opened Tasks
  import Text
  import Seqs
  import Translations

  /** The component state these handlers read and set. */
  datatype AppState = AppState(
    tasks: seq<Task>,
    showTaskForm: bool,
    editingTask: Option<Task>,
    language: string,
    message: string)

  function Say(s: AppState, key: string): string {
    Translations.GetTranslation(key, Some(s.language))
  }

  /** `{ ...task, id: Date.now().toString() }`. */
  function Stamp(task: Task, now: nat): Task {
    task.(id := Some(Text.NatToString(now)))
  }

  /** `tasks.map(task => task.id === updated.id ? updated : task)`. Two absent
      ids compare equal, as `undefined === undefined` does. */
  function Replaced(tasks: seq<Task>, updated: Task): (r: seq<Task>)
    ensures |r| == |tasks|
    ensures forall k :: 0 <= k < |tasks| ==> r[k] == if tasks[k].id == updated.id then updated else tasks[k]
  {
    if tasks == [] then []
    else
      var last := tasks[|tasks| - 1];
      Replaced(tasks[..|tasks| - 1], updated) + [if last.id == updated.id then updated else last]
  }

  /** The test `task => task.id !== taskId`. */
  function OtherId(taskId: TaskId): Task -> bool {
    (t: Task) => t.id != taskId
  }

  /** `tasks.filter(task => task.id !== taskId)`. */
  function Remaining(tasks: seq<Task>, taskId: TaskId): seq<Task> {
    Seqs.Filter(tasks, OtherId(taskId))
  }

  /** `loadTasks`: the loaded list, or the old list and an error message when
      the IPC call throws (`None`). Nothing else of the state changes. */
  function LoadTasks(s: AppState, loaded: Option<seq<Task>>): (r: AppState)
    ensures loaded.Some? ==> r.tasks == loaded.value && r.message == s.message
    ensures loaded.None? ==> r.tasks == s.tasks && r.message == Say(s, "errorLoadingTasks")
    ensures r.showTaskForm == s.showTaskForm && r.editingTask == s.editingTask && r.language == s.language
  {
    match loaded
    case Some(ts) => s.(tasks := ts)
    case None => s.(message := Say(s, "errorLoadingTasks"))
  }

  /** How the `saveTasks` IPC call ends: the main process wrote the file and
      resolved `{ success: true }`, it caught a failed write and resolved
      `{ success: false }`, or the call itself threw. */
  datatype SaveResult = Written | WriteFailed | Rejected

  /** `saveTasks(list)`: the new state and the returned `success` flag. The
      resolved value is not looked at, so only a thrown call counts as a failure. */
  function SaveTasks(s: AppState, list: seq<Task>, saved: SaveResult): (r: (AppState, bool))
    ensures r.1 <==> !saved.Rejected?
    ensures r.0.tasks == if r.1 then list else s.tasks
    ensures !r.1 ==> r.0.message == Say(s, "errorSavingTasks")
    ensures r.0.showTaskForm == s.showTaskForm && r.0.editingTask == s.editingTask && r.0.language == s.language
  {
    if !saved.Rejected? then (s.(tasks := list), true)
    else (s.(message := Say(s, "errorSavingTasks")), false)
  }

  /** What `addTask` does once its save has answered. */
  function AfterAdd(s': AppState, ok: bool): AppState {
    if ok then s'.(message := Say(s', "taskAdded"), showTaskForm := false) else s'
  }

  function AddTask(s: AppState, task: Task, now: nat, saved: SaveResult): (r: AppState)
    ensures !saved.Rejected? ==> r.tasks == s.tasks + [Stamp(task, now)] && !r.showTaskForm
                                 && r.message == Say(s, "taskAdded")
    ensures saved.Rejected? ==> r.tasks == s.tasks && r.showTaskForm == s.showTaskForm
                                && r.message == Say(s, "errorSavingTasks")
    ensures r.editingTask == s.editingTask && r.language == s.language
  {
    var (s', ok) := SaveTasks(s, s.tasks + [Stamp(task, now)], saved);
    AfterAdd(s', ok)
  }

  function UpdateTask(s: AppState, updated: Task, saved: SaveResult): (r: AppState)
    ensures |r.tasks| == |s.tasks|
    ensures !saved.Rejected? ==> r.tasks == Replaced(s.tasks, updated) && r.editingTask.None?
                                 && r.message == Say(s, "taskUpdated")
    ensures saved.Rejected? ==> r.tasks == s.tasks && r.editingTask == s.editingTask
                                && r.message == Say(s, "errorSavingTasks")
    ensures r.showTaskForm == s.showTaskForm && r.language == s.language
  {
    var (s', ok) := SaveTasks(s, Replaced(s.tasks, updated), saved);
    if ok then s'.(message := Say(s', "taskUpdated"), editingTask := None) else s'
  }

  function DeleteTask(s: AppState, taskId: TaskId, saved: SaveResult): (r: AppState)
    ensures |r.tasks| <= |s.tasks|
    ensures !saved.Rejected? ==> r.tasks == Remaining(s.tasks, taskId) && r.message == Say(s, "taskDeleted")
    ensures saved.Rejected? ==> r.tasks == s.tasks && r.message == Say(s, "errorSavingTasks")
    ensures r.showTaskForm == s.showTaskForm && r.editingTask == s.editingTask && r.language == s.language
  {
    var (s', ok) := SaveTasks(s, Remaining(s.tasks, taskId), saved);
    if ok then s'.(message := Say(s', "taskDeleted")) else s'
  }

  /** On a first start the main process answers with its seed list, which the
      component shows in full: four tasks with the ids 1 to 4. */
  lemma FirstLoadShowsSeed(s: AppState)
    ensures var r := LoadTasks(s, Some(Tasks.LoadTasks(None)));
            && |r.tasks| == 4
            && forall i :: 0 <= i < 4 ==> r.tasks[i].id == Some(Text.NatToString(i + 1))
  {
  }

  /** A write the main process could not make answers `{ success: false }`,
      which the component ignores: each handler behaves as after a written
      save, replacing the list and showing its success message. */
  lemma WriteFailureShownAsSuccess(s: AppState, task: Task, taskId: TaskId, now: nat)
    ensures AddTask(s, task, now, WriteFailed) == AddTask(s, task, now, Written)
    ensures UpdateTask(s, task, WriteFailed) == UpdateTask(s, task, Written)
    ensures DeleteTask(s, taskId, WriteFailed) == DeleteTask(s, taskId, Written)
    ensures |AddTask(s, task, now, WriteFailed).tasks| == |s.tasks| + 1
    ensures AddTask(s, task, now, WriteFailed).message == Say(s, "taskAdded")
  {
  }

  /** `saveTasks` as evidently intended: the resolved `success` flag is checked,
      so a failed write is reported like a thrown call and keeps the list. */
  function CheckedSaveTasks(s: AppState, list: seq<Task>, saved: SaveResult): (r: (AppState, bool))
    ensures r.1 <==> saved.Written?
    ensures r.0.tasks == if saved.Written? then list else s.tasks
    ensures !r.1 ==> r.0.message == Say(s, "errorSavingTasks")
  {
    if saved.Written? then (s.(tasks := list), true)
    else (s.(message := Say(s, "errorSavingTasks")), false)
  }

  /** `addTask` over the checked save. */
  function CheckedAddTask(s: AppState, task: Task, now: nat, saved: SaveResult): AppState {
    var (s', ok) := CheckedSaveTasks(s, s.tasks + [Stamp(task, now)], saved);
    AfterAdd(s', ok)
  }

  /** With the checked save, the list grows and the success message shows
      exactly when the file was written. */
  lemma CheckedAddOnlyWhenWritten(s: AppState, task: Task, now: nat, saved: SaveResult)
    ensures var r := CheckedAddTask(s, task, now, saved);
            && (|r.tasks| == |s.tasks| + 1 <==> saved.Written?)
            && (!saved.Written? ==> r.tasks == s.tasks && r.message == Say(s, "errorSavingTasks"))
  {
  }

  /** A thrown save keeps the old list and the form as they were and shows the
      save error, whichever handler asked for it. */
  lemma FailedSaveKeepsTasks(s: AppState, task: Task, taskId: TaskId, now: nat)
    ensures var e := s.(message := Translations.GetTranslation("errorSavingTasks", Some(s.language)));
            && AddTask(s, task, now, Rejected) == e
            && UpdateTask(s, task, Rejected) == e
            && DeleteTask(s, taskId, Rejected) == e
  {
  }

  /** A successful add appends exactly one task, the submitted one with a fresh
      id, after the unchanged old list, then closes the form with a message. */
  lemma AddTaskAppends(s: AppState, task: Task, now: nat)
    ensures var r := AddTask(s, task, now, Written);
            && |r.tasks| == |s.tasks| + 1
            && r.tasks[..|s.tasks|] == s.tasks
            && r.tasks[|s.tasks|].id == Some(Text.NatToString(now))
            && r.tasks[|s.tasks|] == task.(id := r.tasks[|s.tasks|].id)
            && !r.showTaskForm
            && r.message == Translations.GetTranslation("taskAdded", Some(s.language))
  {
    assert (s.tasks + [Stamp(task, now)])[..|s.tasks|] == s.tasks;
  }

  /** Replacing with a task whose id matches nothing leaves the list as it is. */
  lemma {:induction false} ReplaceNoMatch(tasks: seq<Task>, updated: Task)
    requires forall k :: 0 <= k < |tasks| ==> tasks[k].id != updated.id
    ensures Replaced(tasks, updated) == tasks
  {
    if tasks != [] {
      ReplaceNoMatch(tasks[..|tasks| - 1], updated);
    }
  }

  /** The edit form submits a task without an id, and such a task matches only
      tasks without one: on a list whose tasks all carry ids, an edit is saved
      but changes nothing. */
  lemma EditWithoutIdChangesNothing(s: AppState, edited: Task)
    requires edited.id.None?
    requires forall k :: 0 <= k < |s.tasks| ==> s.tasks[k].id.Some?
    ensures UpdateTask(s, edited, Written).tasks == s.tasks
  {
    ReplaceNoMatch(s.tasks, edited);
  }

  /** Replacing twice with the same task is replacing once. */
  lemma ReplaceIdempotent(tasks: seq<Task>, updated: Task)
    ensures Replaced(Replaced(tasks, updated), updated) == Replaced(tasks, updated)
  {
  }

  /** Deleting keeps, in order, exactly the tasks with another id. */
  lemma DeleteAllAndOnly(tasks: seq<Task>, taskId: TaskId)
    ensures var r := Remaining(tasks, taskId);
            && (forall k :: 0 <= k < |r| ==> r[k].id != taskId && r[k] in tasks)
            && (forall k :: 0 <= k < |tasks| && tasks[k].id != taskId ==> tasks[k] in r)
            && Seqs.IsSubsequence(r, tasks)
  {
    Seqs.FilterIsSubsequence(tasks, OtherId(taskId));
  }

  /** Deleting the task just added, when its id was new, restores the old list. */
  lemma DeleteUndoesAdd(tasks: seq<Task>, task: Task, now: nat)
    requires forall k :: 0 <= k < |tasks| ==> tasks[k].id != Some(Text.NatToString(now))
    ensures Remaining(tasks + [Stamp(task, now)], Some(Text.NatToString(now))) == tasks
  {
    var keep := OtherId(Some(Text.NatToString(now)));
    Seqs.FilterAppend(tasks, [Stamp(task, now)], keep);
    Seqs.FilterKeepsAll(tasks, keep);
    assert [Stamp(task, now)][..0] == [];
  }

  /** The multi-row form calls `onSubmit`, that is `addTask`, once per row in one
      event handler. Every such call belongs to the render that was current when
      the form was submitted, so each builds its list from that render's
      `tasks`; the setters of each call overwrite those of the previous one.
      `rendered` is that render's state, `current` the state the previous calls
      left, `nows` the clock readings, and every save is written. */
  function AddEachAsWritten(rendered: AppState, current: AppState, ts: seq<Task>, nows: seq<nat>): AppState
    requires |nows| == |ts|
    decreases |ts|
  {
    if ts == [] then current
    else AddEachAsWritten(rendered, AddTask(rendered, ts[0], nows[0], Written), ts[1..], nows[1..])
  }

  /** As written, only the last row reaches the list: the list ends up as the
      rendered one plus that row. */
  lemma {:induction false} AsWrittenKeepsLastOnly(rendered: AppState, current: AppState, ts: seq<Task>, nows: seq<nat>)
    requires |nows| == |ts| && ts != []
    ensures AddEachAsWritten(rendered, current, ts, nows).tasks == rendered.tasks + [Stamp(ts[|ts| - 1], nows[|ts| - 1])]
    decreases |ts|
  {
    if |ts| > 1 {
      AsWrittenKeepsLastOnly(rendered, AddTask(rendered, ts[0], nows[0], Written), ts[1..], nows[1..]);
    }
  }

  /** Two valid rows submitted together add one task, not two. */
  lemma AsWrittenLosesARow(s: AppState, a: Task, b: Task, n0: nat, n1: nat)
    ensures |AddEachAsWritten(s, s, [a, b], [n0, n1]).tasks| == |s.tasks| + 1
  {
    AsWrittenKeepsLastOnly(s, s, [a, b], [n0, n1]);
  }

  /** The intended flow: each `addTask` extends the list the previous one left. */
  function AddEach(current: AppState, ts: seq<Task>, nows: seq<nat>): AppState
    requires |nows| == |ts|
    decreases |ts|
  {
    if ts == [] then current
    else AddEach(AddTask(current, ts[0], nows[0], Written), ts[1..], nows[1..])
  }

  /** Each row stamped with its own clock reading. */
  function Stamped(ts: seq<Task>, nows: seq<nat>): (r: seq<Task>)
    requires |nows| == |ts|
    ensures |r| == |ts|
    ensures forall k :: 0 <= k < |ts| ==> r[k] == Stamp(ts[k], nows[k])
    decreases |ts|
  {
    if ts == [] then [] else [Stamp(ts[0], nows[0])] + Stamped(ts[1..], nows[1..])
  }

  lemma AddTaskSaved(current: AppState, t: Task, now: nat)
    ensures AddTask(current, t, now, Written).tasks == current.tasks + [Stamp(t, now)]
  {
  }

  /** Threading the state adds every submitted row, in order, each with its own
      clock reading as id, after the unchanged old list. */
  lemma {:induction false} AddEachAppendsAll(current: AppState, ts: seq<Task>, nows: seq<nat>)
    requires |nows| == |ts|
    ensures AddEach(current, ts, nows).tasks == current.tasks + Stamped(ts, nows)
    decreases |ts|
  {
    if ts != [] {
      var next := AddTask(current, ts[0], nows[0], Written);
      AddTaskSaved(current, ts[0], nows[0]);
      AddEachAppendsAll(next, ts[1..], nows[1..]);
      assert Stamped(ts, nows) == [Stamp(ts[0], nows[0])] + Stamped(ts[1..], nows[1..]);
    }
  }
}
