/** The result screen: the generated tasks can be edited field by field before they are
    confirmed. The tasks are objects on the heap. Every edit copies the array of task
    objects and then assigns a field of one of its elements; the copy shares the elements
    with the array the screen was given, so the given tasks change along with the edited
    ones, and resetting to them afterwards keeps the edits. */
module ResultPage {
  import opened Wrappers
  import opened Types
  import Strings

  /** A subtask object. */
  class SubTaskCell {
    var id: string
    var title: string
    var completed: bool

    constructor (st: SubTask)
      ensures Value() == st
    {
      id := st.id;
      title := st.title;
      completed := st.completed;
    }

    /** The subtask the object currently holds. */
    function Value(): SubTask
      reads this
    {
      SubTask(id, title, completed)
    }
  }

  /** A task object; its subtask array is never replaced on this screen, only the subtask
      objects in it are written. */
  class TaskCell {
    var id: string
    var title: string
    var estimatedTime: int
    var category: string
    const subtasks: seq<SubTaskCell>
    var completed: bool
    var createdAt: string

    constructor (t: Task, cells: seq<SubTaskCell>)
      ensures subtasks == cells
      ensures id == t.id && title == t.title && estimatedTime == t.estimatedTime &&
        category == t.category && completed == t.completed && createdAt == t.createdAt
    {
      id := t.id;
      title := t.title;
      estimatedTime := t.estimatedTime;
      category := t.category;
      subtasks := cells;
      completed := t.completed;
      createdAt := t.createdAt;
    }

    /** The task the object and its subtask objects currently hold. */
    function Value(): (t: Task)
      reads this, set s | s in subtasks
      ensures t.id == id && t.title == title && t.estimatedTime == estimatedTime
      ensures t.category == category && t.completed == completed && t.createdAt == createdAt
      ensures |t.subtasks| == |subtasks|
      ensures forall j :: 0 <= j < |subtasks| ==> t.subtasks[j] == subtasks[j].Value()
    {
      Task(id, title, estimatedTime, category, SubtaskValues(subtasks), completed, createdAt)
    }
  }

  /** The subtasks held by a sequence of subtask objects, position by position. */
  function SubtaskValues(cells: seq<SubTaskCell>): (r: seq<SubTask>)
    reads cells
    ensures |r| == |cells|
    ensures forall j :: 0 <= j < |cells| ==> r[j] == cells[j].Value()
  {
    if cells == [] then [] else [cells[0].Value()] + SubtaskValues(cells[1..])
  }

  /** The tasks held by a sequence of task objects, position by position. */
  function TaskValues(cells: seq<TaskCell>): (r: seq<Task>)
    reads set c | c in cells, set c, s | c in cells && s in c.subtasks :: s
    ensures |r| == |cells|
    ensures forall i :: 0 <= i < |cells| ==> r[i] == cells[i].Value()
  {
    if cells == [] then [] else [cells[0].Value()] + TaskValues(cells[1..])
  }

  /** No object is shared between two positions: two task positions hold two objects, and
      two subtask positions, in one task or in two, hold two objects. */
  predicate Distinct(cells: seq<TaskCell>) {
    TasksDistinct(cells) && SubtasksDistinct(cells)
  }

  predicate TasksDistinct(cells: seq<TaskCell>) {
    forall i, k :: 0 <= i < k < |cells| ==> cells[i] != cells[k]
  }

  predicate SubtasksDistinct(cells: seq<TaskCell>) {
    forall i, j, k, l ::
      (0 <= i < |cells| && 0 <= j < |cells[i].subtasks| && 0 <= k < |cells| &&
       0 <= l < |cells[k].subtasks| && (i != k || j != l)) ==>
      cells[i].subtasks[j] != cells[k].subtasks[l]
  }

  class ResultPage {
    /** The `tasks` property the screen was given. */
    const tasks: seq<TaskCell>
    /** `editingTasks` */
    var editingTasks: seq<TaskCell>
    var isEditing: bool

    /** Every copy of the array the screen makes holds the very objects it was given. */
    predicate Valid()
      reads this
    {
      editingTasks == tasks && Distinct(tasks)
    }

    /** `useState(tasks || [])`: the editing list starts out as the given array. */
    constructor (cells: seq<TaskCell>)
      requires Distinct(cells)
      ensures Valid() && tasks == cells && !isEditing
    {
      tasks := cells;
      editingTasks := cells;
      isEditing := false;
    }

    /** `updateTaskTitle(i, newTitle)`: only the title of task i changes, in the editing
        list and, through the shared object, in the given tasks. */
    method UpdateTaskTitle(i: nat, newTitle: string)
      requires Valid() && i < |editingTasks|
      modifies this, editingTasks[i]
      ensures Valid() && isEditing == old(isEditing) && editingTasks == old(editingTasks)
      ensures editingTasks[i].Value() == old(editingTasks[i].Value()).(title := newTitle)
      ensures forall k :: 0 <= k < |editingTasks| && k != i ==> editingTasks[k].Value() == old(editingTasks[k].Value())
    {
      var updated := editingTasks;
      updated[i].title := newTitle;
      editingTasks := updated;
    }

    /** `updateTaskCategory(i, newCategory)` */
    method UpdateTaskCategory(i: nat, newCategory: string)
      requires Valid() && i < |editingTasks|
      modifies this, editingTasks[i]
      ensures Valid() && isEditing == old(isEditing) && editingTasks == old(editingTasks)
      ensures editingTasks[i].Value() == old(editingTasks[i].Value()).(category := newCategory)
      ensures forall k :: 0 <= k < |editingTasks| && k != i ==> editingTasks[k].Value() == old(editingTasks[k].Value())
    {
      var updated := editingTasks;
      updated[i].category := newCategory;
      editingTasks := updated;
    }

    /** `updateEstimatedTime(i, newTime)` */
    method UpdateEstimatedTime(i: nat, newTime: int)
      requires Valid() && i < |editingTasks|
      modifies this, editingTasks[i]
      ensures Valid() && isEditing == old(isEditing) && editingTasks == old(editingTasks)
      ensures editingTasks[i].Value() == old(editingTasks[i].Value()).(estimatedTime := newTime)
      ensures forall k :: 0 <= k < |editingTasks| && k != i ==> editingTasks[k].Value() == old(editingTasks[k].Value())
    {
      var updated := editingTasks;
      updated[i].estimatedTime := newTime;
      editingTasks := updated;
    }

    /** The number field's change handler: `updateEstimatedTime(i, parseInt(value) || 0)`, so
        text without a digit sets the time to 0. */
    method EstimatedTimeChanged(i: nat, text: string)
      requires Valid() && i < |editingTasks|
      modifies this, editingTasks[i]
      ensures Valid() && isEditing == old(isEditing) && editingTasks == old(editingTasks)
      ensures editingTasks[i].Value() == old(editingTasks[i].Value()).(estimatedTime := Strings.ParseIntOrZero(text))
      ensures forall k :: 0 <= k < |editingTasks| && k != i ==> editingTasks[k].Value() == old(editingTasks[k].Value())
      ensures (forall k :: 0 <= k < |text| ==> !Strings.IsDigit(text[k])) ==> editingTasks[i].estimatedTime == 0
    {
      if forall k :: 0 <= k < |text| ==> !Strings.IsDigit(text[k]) {
        Strings.ParseIntWithoutDigits(text);
      }
      UpdateEstimatedTime(i, Strings.ParseIntOrZero(text));
    }

    /** `updateSubtaskTitle(i, j, newTitle)`: only the title of subtask j of task i changes. */
    method UpdateSubtaskTitle(i: nat, j: nat, newTitle: string)
      requires Valid() && i < |editingTasks| && j < |editingTasks[i].subtasks|
      modifies this, editingTasks[i].subtasks[j]
      ensures Valid() && isEditing == old(isEditing) && editingTasks == old(editingTasks)
      ensures var t := old(editingTasks[i].Value());
        editingTasks[i].Value() == t.(subtasks := t.subtasks[j := t.subtasks[j].(title := newTitle)])
      ensures forall k :: 0 <= k < |editingTasks| && k != i ==> editingTasks[k].Value() == old(editingTasks[k].Value())
    {
      var updated := editingTasks;
      updated[i].subtasks[j].title := newTitle;
      editingTasks := updated;
    }

    /** The edit button: `setIsEditing(true)`. */
    method StartEdit()
      modifies this
      ensures isEditing && editingTasks == old(editingTasks)
    {
      isEditing := true;
    }

    /** `handleSaveEdit`: editing ends with the edits in place. */
    method HandleSaveEdit()
      modifies this
      ensures !isEditing && editingTasks == old(editingTasks)
    {
      isEditing := false;
    }

    /** `handleCancelEdit`: the editing list is reset to the given array, but that array holds
        the edited objects, so every edit made since the screen opened stays. */
    method HandleCancelEdit()
      requires Valid()
      modifies this
      ensures Valid() && !isEditing
      ensures TaskValues(editingTasks) == old(TaskValues(editingTasks))
    {
      editingTasks := tasks;
      isEditing := false;
    }

    /** `handleConfirm`, with the button disabled while editing: `None` when the click does
        nothing, otherwise the tasks handed to `onConfirm`, which are the current edits. */
    method HandleConfirm() returns (r: Option<seq<Task>>)
      requires Valid()
      ensures r.None? <==> isEditing
      ensures r.Some? ==> r.value == TaskValues(editingTasks) && r.value == TaskValues(tasks)
    {
      if isEditing {
        return None;
      }
      r := Some(TaskValues(editingTasks));
    }
  }

  /** Editing a title and then cancelling: the edited title is what the screen shows and
      what confirm would hand on. */
  method CancelKeepsTitleEdit(page: ResultPage, i: nat, newTitle: string)
    requires page.Valid() && i < |page.editingTasks|
    modifies page, page.editingTasks[i]
    ensures page.Valid() && !page.isEditing
    ensures TaskValues(page.editingTasks)[i].title == newTitle
    ensures TaskValues(page.tasks)[i].title == newTitle
  {
    page.UpdateTaskTitle(i, newTitle);
    page.HandleCancelEdit();
  }
}
