/** The dashboard: the subtask checkbox, the active/completed split of the task list, the
    progress of a task card and the set of expanded cards. */
module DashboardPage {
  import opened Wrappers
  import opened Types
  import Seqs
  import TaskService

  /** One subtask after its checkbox is clicked, when it carries the clicked id. */
  function FlipIfId(st: SubTask, subtaskId: string): SubTask {
    if st.id == subtaskId then st.(completed := !st.completed) else st
  }

  /** `task.subtasks.map(st => st.id === subtaskId ? { ...st, completed: !st.completed } : st)`:
      the completion flips on the subtasks with that id; ids, titles and every other subtask
      stay as they were. */
  function ToggleSubtasks(subtasks: seq<SubTask>, subtaskId: string): (r: seq<SubTask>)
    ensures |r| == |subtasks|
    ensures forall i :: 0 <= i < |r| ==>
      r[i].id == subtasks[i].id && r[i].title == subtasks[i].title &&
      (r[i].completed <==> (subtasks[i].completed != (subtasks[i].id == subtaskId)))
  {
    Seqs.Map(subtasks, st => FlipIfId(st, subtaskId))
  }

  /** Clicking the same checkbox twice gives back the original subtasks. */
  lemma ToggleTwiceRestores(subtasks: seq<SubTask>, subtaskId: string)
    ensures ToggleSubtasks(ToggleSubtasks(subtasks, subtaskId), subtaskId) == subtasks
  {
    var f := st => FlipIfId(st, subtaskId);
    Seqs.MapInvolution(subtasks, f);
  }

  /** The update `handleSubtaskToggle` sends: the toggled subtasks, and the task completed
      exactly when all of them are. */
  function SubtaskToggleUpdate(task: Task, subtaskId: string): (u: TaskService.TaskUpdates)
    ensures u.subtasks == Some(ToggleSubtasks(task.subtasks, subtaskId))
    ensures u.completed == Some(forall i :: 0 <= i < |u.subtasks.value| ==> u.subtasks.value[i].completed)
    ensures u.title.None? && u.category.None? && u.estimatedTime.None?
  {
    var updated := ToggleSubtasks(task.subtasks, subtaskId);
    TaskService.TaskUpdates(Some(AllSubtasksCompleted(updated)), Some(updated), None, None, None)
  }

  /** `handleSubtaskToggle(task, subtaskId)` for the signed-in user `user` (`None` when
      `getUser` finds none, which throws, and the page alerts). It writes the update through
      the tasks table and answers whether it succeeded, after which the page reloads. */
  method HandleSubtaskToggle(task: Task, subtaskId: string, user: Option<string>,
                             table: TaskService.TaskTable, error: Option<string>) returns (ok: bool)
    modifies table
    ensures ok <==> user.Some? && error.None?
    ensures ok ==> table.rows == TaskService.UpdatedRows(old(table.rows), task.id, user.value, SubtaskToggleUpdate(task, subtaskId))
    ensures !ok ==> table.rows == old(table.rows)
  {
    var u := SubtaskToggleUpdate(task, subtaskId);
    if user.None? {
      return false;
    }
    var r := table.UpdateTask(task.id, u, user.value, error);
    ok := r.Success?;
  }

  predicate IsActive(t: Task) { !t.completed }
  predicate IsDone(t: Task) { t.completed }

  function ActiveTasks(tasks: seq<Task>): seq<Task> {
    Seqs.Filter(tasks, IsActive)
  }

  function CompletedTasks(tasks: seq<Task>): seq<Task> {
    Seqs.Filter(tasks, IsDone)
  }

  /** The two lists split the tasks by `completed`: each task lands in exactly one of them,
      as often as it occurs; the order of each list is the order of `tasks`, since a filter
      distributes over concatenation. */
  lemma ActiveAndCompletedPartition(tasks: seq<Task>)
    ensures forall t :: t in ActiveTasks(tasks) <==> t in tasks && !t.completed
    ensures forall t :: t in CompletedTasks(tasks) <==> t in tasks && t.completed
    ensures multiset(ActiveTasks(tasks)) + multiset(CompletedTasks(tasks)) == multiset(tasks)
    ensures forall a, b :: ActiveTasks(a + b) == ActiveTasks(a) + ActiveTasks(b)
    ensures forall a, b :: CompletedTasks(a + b) == CompletedTasks(a) + CompletedTasks(b)
  {
    Seqs.FilterMembers(tasks, IsActive);
    Seqs.FilterMembers(tasks, IsDone);
    Seqs.FilterPartition(tasks, IsActive, IsDone);
    forall a, b
      ensures ActiveTasks(a + b) == ActiveTasks(a) + ActiveTasks(b)
      ensures CompletedTasks(a + b) == CompletedTasks(a) + CompletedTasks(b)
    {
      Seqs.FilterConcat(a, b, IsActive);
      Seqs.FilterConcat(a, b, IsDone);
    }
  }

  /** `task.subtasks.filter(st => st.completed).length` */
  function CompletedCount(task: Task): (n: nat)
    ensures n <= |task.subtasks|
    ensures n == |task.subtasks| <==> AllSubtasksCompleted(task.subtasks)
  {
    Seqs.Count(task.subtasks, IsCompleted)
  }

  /** `getProgress(task)`, in exact arithmetic: 0 with no subtasks, otherwise the completed
      share as a percentage. */
  function Progress(task: Task): (p: real)
    ensures 0.0 <= p <= 100.0
    ensures |task.subtasks| == 0 ==> p == 0.0
    ensures p == 100.0 <==> |task.subtasks| > 0 && AllSubtasksCompleted(task.subtasks)
  {
    if |task.subtasks| == 0 then 0.0
    else
      var done := CompletedCount(task) as real;
      var total := |task.subtasks| as real;
      assert done <= total;
      ProgressBounds(done, total);
      done / total * 100.0
  }

  lemma ProgressBounds(done: real, total: real)
    requires 0.0 <= done <= total && total > 0.0
    ensures 0.0 <= done / total * 100.0 <= 100.0
    ensures done / total * 100.0 == 100.0 <==> done == total
  {
    assert done / total <= 1.0;
  }

  /** The page state that survives a render: the ids of the expanded cards. */
  class Dashboard {
    var expanded: set<string>

    constructor ()
      ensures expanded == {}
    {
      expanded := {};
    }

    /** `toggleTaskExpand(taskId)` */
    method ToggleTaskExpand(taskId: string)
      modifies this
      ensures expanded == Toggled(old(expanded), taskId)
    {
      var next := expanded;
      if taskId in next {
        next := next - {taskId};
      } else {
        next := next + {taskId};
      }
      expanded := next;
    }
  }

  /** The set with the membership of `id` flipped. */
  function Toggled(s: set<string>, id: string): set<string> {
    if id in s then s - {id} else s + {id}
  }

  /** A toggle flips the membership of its id only, and a second toggle undoes it. */
  lemma ToggledFlipsOnlyId(s: set<string>, id: string)
    ensures id in Toggled(s, id) <==> id !in s
    ensures forall x :: x != id ==> (x in Toggled(s, id) <==> x in s)
    ensures Toggled(Toggled(s, id), id) == s
  {
  }
}
