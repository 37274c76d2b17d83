/** The selection and task-group handlers of the task list
    (src/renderer/src/components/TaskList.jsx). Persisting the groups to
    `localStorage` is an effect and is left out; `Date.now()` and
    `new Date().toISOString()` are the parameters `now` and `isoTime`. */
module TaskList {
  import opened Options
  import opened Tasks
  import Text
  import Seqs

  /** The `selectedTasks` set: ids of the selected tasks. */
  type Selection = set<TaskId>

  /** The selection with `taskId`'s membership flipped. */
  function Toggle(selected: Selection, taskId: TaskId): (r: Selection)
    ensures taskId in r <==> taskId !in selected
    ensures forall other :: other != taskId ==> (other in r <==> other in selected)
  {
    if taskId in selected then selected - {taskId} else selected + {taskId}
  }

  /** `handleTaskSelect(taskId)`: copy the set, then delete or add the id. */
  method HandleTaskSelect(selectedTasks: Selection, taskId: TaskId) returns (newSelected: Selection)
    ensures newSelected == Toggle(selectedTasks, taskId)
  {
    newSelected := selectedTasks;
    if taskId in newSelected {
      newSelected := newSelected - {taskId};
    } else {
      newSelected := newSelected + {taskId};
    }
  }

  /** Selecting the same task twice restores the selection. */
  lemma ToggleTwice(selected: Selection, taskId: TaskId)
    ensures Toggle(Toggle(selected, taskId), taskId) == selected
  {
  }

  /** `new Set(tasks.map(task => task.id))`: the id of every listed task, and
      nothing else. */
  function SelectAll(tasks: seq<Task>): (r: Selection)
    ensures forall k :: 0 <= k < |tasks| ==> tasks[k].id in r
    ensures forall id :: id in r ==> exists k :: 0 <= k < |tasks| && tasks[k].id == id
  {
    set k | 0 <= k < |tasks| :: tasks[k].id
  }

  /** `clearSelection()`. */
  function ClearSelection(): (r: Selection)
    ensures forall id :: id !in r
  {
    {}
  }

  /** The test `task => selectedTasks.has(task.id)`. */
  function IsSelected(selected: Selection): Task -> bool {
    (t: Task) => t.id in selected
  }

  /** `tasks.filter(task => selectedTasks.has(task.id))`. */
  function SelectedTasks(tasks: seq<Task>, selected: Selection): seq<Task> {
    Seqs.Filter(tasks, IsSelected(selected))
  }

  /** The selected tasks are the listed tasks whose id is selected, in list order. */
  lemma SelectedTasksSpec(tasks: seq<Task>, selected: Selection)
    ensures var r := SelectedTasks(tasks, selected);
            && (forall k :: 0 <= k < |r| ==> r[k].id in selected && r[k] in tasks)
            && (forall k :: 0 <= k < |tasks| && tasks[k].id in selected ==> tasks[k] in r)
            && Seqs.IsSubsequence(r, tasks)
  {
    Seqs.FilterIsSubsequence(tasks, IsSelected(selected));
  }

  /** `handleRunMultiple()`: the tasks handed to `executeMultipleTasks`, or
      `None` when the selection is empty and nothing is run. */
  function RunMultiple(tasks: seq<Task>, selected: Selection): (r: Option<seq<Task>>)
    ensures r.None? <==> selected == {}
  {
    if |selected| == 0 then None else Some(SelectedTasks(tasks, selected))
  }

  /** Selecting every listed task runs the whole list, in order. */
  lemma RunAllRunsEverything(tasks: seq<Task>)
    requires tasks != []
    ensures RunMultiple(tasks, SelectAll(tasks)) == Some(tasks)
  {
    assert tasks[0].id in SelectAll(tasks);
    Seqs.FilterKeepsAll(tasks, IsSelected(SelectAll(tasks)));
  }

  /** The part of the component state the group handlers read and set. */
  datatype ListState = ListState(
    selected: Selection,
    taskGroups: seq<TaskGroup>,
    newGroupName: string,
    showTaskGroups: bool)

  /** `saveAsTaskGroup()`: refused (no change) when the trimmed name or the
      selection is empty; otherwise one group with the trimmed name and the
      selected tasks is appended, stamped with `Date.now()` as its id and the ISO
      time as `createdAt`; the name and selection are cleared and the groups
      panel closes. */
  function SaveAsTaskGroup(s: ListState, tasks: seq<Task>, now: nat, isoTime: string): ListState {
    var name := Text.Trim(s.newGroupName);
    if name == [] || |s.selected| == 0 then s
    else
      var group := TaskGroup(Text.NatToString(now), name, SelectedTasks(tasks, s.selected), isoTime);
      ListState({}, s.taskGroups + [group], "", false)
  }

  lemma SaveAsTaskGroupSpec(s: ListState, tasks: seq<Task>, now: nat, isoTime: string)
    ensures var r := SaveAsTaskGroup(s, tasks, now, isoTime);
            && (Text.Trim(s.newGroupName) == [] || s.selected == {} ==> r == s)
            && (Text.Trim(s.newGroupName) != [] && s.selected != {} ==>
                  && |r.taskGroups| == |s.taskGroups| + 1
                  && r.taskGroups[..|s.taskGroups|] == s.taskGroups
                  && r.taskGroups[|s.taskGroups|].name == Text.Trim(s.newGroupName)
                  && r.taskGroups[|s.taskGroups|].tasks == SelectedTasks(tasks, s.selected)
                  && r.taskGroups[|s.taskGroups|].id == Text.NatToString(now)
                  && r.taskGroups[|s.taskGroups|].createdAt == isoTime
                  && r.selected == {} && r.newGroupName == "" && !r.showTaskGroups)
  {
    var r := SaveAsTaskGroup(s, tasks, now, isoTime);
    if Text.Trim(s.newGroupName) != [] && s.selected != {} {
      assert r.taskGroups[..|s.taskGroups|] == s.taskGroups;
    }
  }

  /** The id set of a list of tasks: `new Set(group.tasks.map(task => task.id))`. */
  function Ids(tasks: seq<Task>): set<TaskId> {
    set k | 0 <= k < |tasks| :: tasks[k].id
  }

  /** `loadTaskGroup(group)`: select exactly the ids of the group's tasks and
      close the groups panel. */
  function LoadTaskGroup(s: ListState, group: TaskGroup): (r: ListState)
    ensures forall id :: id in r.selected <==> exists k :: 0 <= k < |group.tasks| && group.tasks[k].id == id
    ensures r.taskGroups == s.taskGroups && r.newGroupName == s.newGroupName && !r.showTaskGroups
  {
    s.(selected := Ids(group.tasks), showTaskGroups := false)
  }

  lemma {:induction false} IdsAppend(a: seq<Task>, b: seq<Task>)
    ensures Ids(a + b) == Ids(a) + Ids(b)
  {
    var ab := a + b;
    forall id | id in Ids(a + b) ensures id in Ids(a) + Ids(b) {
      var k :| 0 <= k < |ab| && ab[k].id == id;
      if k < |a| { assert a[k] == ab[k]; } else { assert b[k - |a|] == ab[k]; }
    }
    forall id | id in Ids(a) + Ids(b) ensures id in Ids(a + b) {
      if id in Ids(a) {
        var k :| 0 <= k < |a| && a[k].id == id;
        assert ab[k] == a[k];
      } else {
        var k :| 0 <= k < |b| && b[k].id == id;
        assert ab[|a| + k] == b[k];
      }
    }
  }

  /** The ids of the selected tasks are the selected ids that some listed task carries. */
  lemma {:induction false} SelectedIds(tasks: seq<Task>, selected: Selection)
    ensures Ids(SelectedTasks(tasks, selected)) == selected * Ids(tasks)
  {
    if tasks == [] {
      assert SelectedTasks(tasks, selected) == [];
    } else {
      var init := tasks[..|tasks| - 1];
      var t := tasks[|tasks| - 1];
      SelectedIds(init, selected);
      assert tasks == init + [t];
      Seqs.FilterAppend(init, [t], IsSelected(selected));
      assert [t][..0] == [];
      IdsAppend(init, [t]);
      if t.id in selected {
        IdsAppend(SelectedTasks(init, selected), [t]);
      } else {
        assert SelectedTasks(tasks, selected) == SelectedTasks(init, selected);
      }
    }
  }

  /** Saving the selection as a group and loading that group again gives back
      the selection, less any id no listed task carries. */
  lemma SaveThenLoad(s: ListState, tasks: seq<Task>, now: nat, isoTime: string)
    requires Text.Trim(s.newGroupName) != [] && s.selected != {}
    ensures var saved := SaveAsTaskGroup(s, tasks, now, isoTime);
            LoadTaskGroup(saved, saved.taskGroups[|saved.taskGroups| - 1]).selected == s.selected * Ids(tasks)
  {
    SelectedIds(tasks, s.selected);
  }

  /** The test `group => group.id !== groupId`. */
  function OtherGroup(groupId: string): TaskGroup -> bool {
    (g: TaskGroup) => g.id != groupId
  }

  /** `deleteTaskGroup(groupId)`: the groups with another id, in order. */
  function DeleteTaskGroup(groups: seq<TaskGroup>, groupId: string): seq<TaskGroup> {
    Seqs.Filter(groups, OtherGroup(groupId))
  }

  lemma DeleteTaskGroupSpec(groups: seq<TaskGroup>, groupId: string)
    ensures var r := DeleteTaskGroup(groups, groupId);
            && (forall k :: 0 <= k < |r| ==> r[k].id != groupId && r[k] in groups)
            && (forall k :: 0 <= k < |groups| && groups[k].id != groupId ==> groups[k] in r)
            && Seqs.IsSubsequence(r, groups)
  {
    Seqs.FilterIsSubsequence(groups, OtherGroup(groupId));
  }
}
