/** The review screen: edits on the draft task list, each producing a new list with
    `map`/`filter`. */
module ReviewPage {
  import opened Wrappers
  import opened Types
  import Strings
  import Seqs

  /** `Partial<Task>`; `None` is a key that is not present. */
  datatype TaskPatch = TaskPatch(
    id: Option<string>,
    title: Option<string>,
    estimatedTime: Option<int>,
    category: Option<string>,
    subtasks: Option<seq<SubTask>>,
    completed: Option<bool>,
    createdAt: Option<string>)

  const NoChange: TaskPatch := TaskPatch(None, None, None, None, None, None, None)

  /** `{ ...task, ...updates }` */
  function Merge(task: Task, p: TaskPatch): Task {
    Task(
      if p.id.Some? then p.id.value else task.id,
      if p.title.Some? then p.title.value else task.title,
      if p.estimatedTime.Some? then p.estimatedTime.value else task.estimatedTime,
      if p.category.Some? then p.category.value else task.category,
      if p.subtasks.Some? then p.subtasks.value else task.subtasks,
      if p.completed.Some? then p.completed.value else task.completed,
      if p.createdAt.Some? then p.createdAt.value else task.createdAt)
  }

  /** A merge sets exactly the present keys, and merging the same patch again changes
      nothing more. */
  lemma MergeSetsPresentKeys(task: Task, p: TaskPatch)
    ensures p.title.Some? ==> Merge(task, p).title == p.title.value
    ensures p.title.None? ==> Merge(task, p).title == task.title
    ensures p.estimatedTime.Some? ==> Merge(task, p).estimatedTime == p.estimatedTime.value
    ensures p.estimatedTime.None? ==> Merge(task, p).estimatedTime == task.estimatedTime
    ensures p.category.Some? ==> Merge(task, p).category == p.category.value
    ensures p.category.None? ==> Merge(task, p).category == task.category
    ensures p.id.Some? ==> Merge(task, p).id == p.id.value
    ensures p.id.None? ==> Merge(task, p).id == task.id
    ensures p.subtasks.Some? ==> Merge(task, p).subtasks == p.subtasks.value
    ensures p.subtasks.None? ==> Merge(task, p).subtasks == task.subtasks
    ensures p.completed.Some? ==> Merge(task, p).completed == p.completed.value
    ensures p.completed.None? ==> Merge(task, p).completed == task.completed
    ensures p.createdAt.Some? ==> Merge(task, p).createdAt == p.createdAt.value
    ensures p.createdAt.None? ==> Merge(task, p).createdAt == task.createdAt
    ensures Merge(Merge(task, p), p) == Merge(task, p)
    ensures Merge(task, NoChange) == task
  {
  }

  /** `updateTask(taskId, updates)`: tasks with that id are merged with the updates; every
      other task stays, and so does the length. */
  function UpdateTask(tasks: seq<Task>, taskId: string, p: TaskPatch): (r: seq<Task>)
    ensures |r| == |tasks|
    ensures forall i :: 0 <= i < |tasks| && tasks[i].id == taskId ==> r[i] == Merge(tasks[i], p)
    ensures forall i :: 0 <= i < |tasks| && tasks[i].id != taskId ==> r[i] == tasks[i]
  {
    Seqs.Map(tasks, (t: Task) => if t.id == taskId then Merge(t, p) else t)
  }

  /** `updateSubtask(taskId, subtaskId, title)`: inside the tasks with that id, the subtasks
      with that id take the new title; nothing else changes. */
  function UpdateSubtask(tasks: seq<Task>, taskId: string, subtaskId: string, title: string): (r: seq<Task>)
    ensures |r| == |tasks|
    ensures forall i :: 0 <= i < |tasks| && tasks[i].id != taskId ==> r[i] == tasks[i]
    ensures forall i :: 0 <= i < |tasks| && tasks[i].id == taskId ==>
      r[i] == tasks[i].(subtasks := r[i].subtasks) && |r[i].subtasks| == |tasks[i].subtasks| &&
      forall j :: 0 <= j < |tasks[i].subtasks| ==>
        r[i].subtasks[j] == (if tasks[i].subtasks[j].id == subtaskId
                             then tasks[i].subtasks[j].(title := title) else tasks[i].subtasks[j])
  {
    Seqs.Map(tasks, (t: Task) =>
      if t.id == taskId
      then t.(subtasks := Seqs.Map(t.subtasks, (st: SubTask) => if st.id == subtaskId then st.(title := title) else st))
      else t)
  }

  /** The id `addSubtask` gives the new subtask: `st-` followed by the clock reading. */
  function NewSubtaskId(now: nat): string {
    "st-" + Strings.NatToString(now)
  }

  /** `addSubtask(taskId)` at clock reading `now`: each task with that id gains one subtask at
      the end, with an empty title and not completed; every other task stays. */
  function AddSubtask(tasks: seq<Task>, taskId: string, now: nat): (r: seq<Task>)
    ensures |r| == |tasks|
    ensures forall i :: 0 <= i < |tasks| && tasks[i].id != taskId ==> r[i] == tasks[i]
    ensures forall i :: 0 <= i < |tasks| && tasks[i].id == taskId ==>
      r[i] == tasks[i].(subtasks := tasks[i].subtasks + [SubTask(NewSubtaskId(now), "", false)])
  {
    Seqs.Map(tasks, (t: Task) =>
      if t.id == taskId then t.(subtasks := t.subtasks + [SubTask(NewSubtaskId(now), "", false)]) else t)
  }

  predicate SubtaskKept(st: SubTask, subtaskId: string) {
    st.id != subtaskId
  }

  /** `removeSubtask(taskId, subtaskId)`: inside the tasks with that id, the subtasks with
      that id go and the others stay in order; every other task stays. */
  function RemoveSubtask(tasks: seq<Task>, taskId: string, subtaskId: string): (r: seq<Task>)
    ensures |r| == |tasks|
    ensures forall i :: 0 <= i < |tasks| && tasks[i].id != taskId ==> r[i] == tasks[i]
    ensures forall i :: 0 <= i < |tasks| && tasks[i].id == taskId ==>
      r[i] == tasks[i].(subtasks := Seqs.Filter(tasks[i].subtasks, st => SubtaskKept(st, subtaskId)))
  {
    Seqs.Map(tasks, (t: Task) =>
      if t.id == taskId then t.(subtasks := Seqs.Filter(t.subtasks, st => SubtaskKept(st, subtaskId))) else t)
  }

  /** What `removeSubtask` leaves of one task's subtasks: exactly those of another id. */
  lemma RemoveSubtaskKeepsOthers(subtasks: seq<SubTask>, subtaskId: string)
    ensures forall st :: st in Seqs.Filter(subtasks, st => SubtaskKept(st, subtaskId)) <==>
      st in subtasks && st.id != subtaskId
  {
    Seqs.FilterMembers(subtasks, st => SubtaskKept(st, subtaskId));
  }

  /** Removing the subtask `addSubtask` just appended gives the list back, as long as no
      earlier subtask of those tasks carried the same id. */
  lemma {:induction false} AddThenRemoveSubtask(tasks: seq<Task>, taskId: string, now: nat)
    requires forall i, j :: 0 <= i < |tasks| && tasks[i].id == taskId && 0 <= j < |tasks[i].subtasks| ==>
      tasks[i].subtasks[j].id != NewSubtaskId(now)
    ensures RemoveSubtask(AddSubtask(tasks, taskId, now), taskId, NewSubtaskId(now)) == tasks
  {
    var added := AddSubtask(tasks, taskId, now);
    var r := RemoveSubtask(added, taskId, NewSubtaskId(now));
    forall i | 0 <= i < |tasks|
      ensures r[i] == tasks[i]
    {
      if tasks[i].id == taskId {
        var keep := st => SubtaskKept(st, NewSubtaskId(now));
        var s := tasks[i].subtasks;
        var blank := SubTask(NewSubtaskId(now), "", false);
        assert added[i].subtasks == s + [blank];
        Seqs.FilterConcat(s, [blank], keep);
        Seqs.FilterAll(s, keep);
        assert Seqs.Filter([blank], keep) == [];
      }
    }
  }

  predicate TaskKept(t: Task, taskId: string) {
    t.id != taskId
  }

  /** `removeTask(taskId)` */
  function RemoveTask(tasks: seq<Task>, taskId: string): seq<Task> {
    Seqs.Filter(tasks, t => TaskKept(t, taskId))
  }

  /** `removeTask` drops exactly the tasks with that id; the others stay, in their order,
      each as often as before. */
  lemma RemoveTaskDropsOnlyThatId(tasks: seq<Task>, taskId: string)
    ensures forall t :: t in RemoveTask(tasks, taskId) <==> t in tasks && t.id != taskId
    ensures forall a, b :: RemoveTask(a + b, taskId) == RemoveTask(a, taskId) + RemoveTask(b, taskId)
    ensures (forall i :: 0 <= i < |tasks| ==> tasks[i].id != taskId) ==> RemoveTask(tasks, taskId) == tasks
  {
    Seqs.FilterMembers(tasks, t => TaskKept(t, taskId));
    forall a, b ensures RemoveTask(a + b, taskId) == RemoveTask(a, taskId) + RemoveTask(b, taskId) {
      Seqs.FilterConcat(a, b, t => TaskKept(t, taskId));
    }
    if forall i :: 0 <= i < |tasks| ==> tasks[i].id != taskId {
      Seqs.FilterAll(tasks, t => TaskKept(t, taskId));
    }
  }

  /** The estimated-time field: `parseInt(value) || 0`. */
  function EstimatedTimeInput(text: string): int {
    Strings.ParseIntOrZero(text)
  }

  /** Input with no digit becomes 0; a numeral the field wrote reads back as its number. */
  lemma EstimatedTimeInputDefaults(text: string, n: nat)
    ensures (forall i :: 0 <= i < |text| ==> !Strings.IsDigit(text[i])) ==> EstimatedTimeInput(text) == 0
    ensures EstimatedTimeInput(Strings.NatToString(n)) == n
  {
    if forall i :: 0 <= i < |text| ==> !Strings.IsDigit(text[i]) {
      Strings.ParseIntWithoutDigits(text);
    }
    Strings.ParseIntOfNatToString(n);
  }

  /** The accept-all button is disabled exactly when no task is left. */
  predicate AcceptAllDisabled(tasks: seq<Task>) {
    |tasks| == 0
  }

  /** Removing tasks disables accepting all exactly when no task with another id is left. */
  lemma RemovalDisablesAcceptAll(tasks: seq<Task>, taskId: string)
    ensures AcceptAllDisabled(RemoveTask(tasks, taskId)) <==>
      forall i :: 0 <= i < |tasks| ==> tasks[i].id == taskId
  {
    RemoveTaskDropsOnlyThatId(tasks, taskId);
    if exists i :: 0 <= i < |tasks| && tasks[i].id != taskId {
      var i :| 0 <= i < |tasks| && tasks[i].id != taskId;
      assert tasks[i] in RemoveTask(tasks, taskId);
    }
    if RemoveTask(tasks, taskId) != [] {
      var t := RemoveTask(tasks, taskId)[0];
      assert t in RemoveTask(tasks, taskId);
    }
  }
}
