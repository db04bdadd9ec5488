/** The focus-mode page: a countdown over one task's estimated time and a cursor that walks
    through the task's incomplete subtasks. The page's state is a `FocusSession` object; the
    interval timer is one `Tick` step, and the database write goes through the tasks table. */
module FocusPage {
  import opened Wrappers
  import opened Types
  import opened Strings
  import TaskService

  /** `tasks.find(t => t.id === id)` */
  function FindTask(tasks: seq<Task>, id: string): (r: Option<Task>)
    ensures r.None? <==> forall k :: 0 <= k < |tasks| ==> tasks[k].id != id
    ensures r.Some? ==> r.value in tasks && r.value.id == id
  {
    if tasks == [] then None
    else if tasks[0].id == id then Some(tasks[0])
    else FindTask(tasks[1..], id)
  }

  /** `find` answers with the first task carrying the id. */
  lemma {:induction false} FindTaskFirst(tasks: seq<Task>, id: string, i: nat)
    requires i < |tasks| && tasks[i].id == id
    requires forall j :: 0 <= j < i ==> tasks[j].id != id
    ensures FindTask(tasks, id) == Some(tasks[i])
  {
    if i > 0 {
      FindTaskFirst(tasks[1..], id, i - 1);
    }
  }

  /** The first incomplete subtask at index `from` or later: `findIndex` with a predicate
      that also asks `index >= from`, as an index or `None` for -1. */
  function NextIncomplete(subtasks: seq<SubTask>, from: nat): (r: Option<nat>)
    ensures r.Some? ==> from <= r.value < |subtasks| && !subtasks[r.value].completed
    ensures r.Some? ==> forall k :: from <= k < r.value ==> subtasks[k].completed
    ensures r.None? <==> forall k :: from <= k < |subtasks| ==> subtasks[k].completed
    decreases |subtasks| - from
  {
    if from >= |subtasks| then None
    else if !subtasks[from].completed then Some(from)
    else NextIncomplete(subtasks, from + 1)
  }

  /** The cursor the page starts on: the first incomplete subtask, or 0 when every subtask is
      complete. */
  function InitialCursor(subtasks: seq<SubTask>): (r: nat)
    ensures (exists k :: 0 <= k < |subtasks| && !subtasks[k].completed) ==>
      r < |subtasks| && !subtasks[r].completed && forall k :: 0 <= k < r ==> subtasks[k].completed
    ensures (forall k :: 0 <= k < |subtasks| ==> subtasks[k].completed) ==> r == 0
  {
    match NextIncomplete(subtasks, 0)
    case None => 0
    case Some(i) => i
  }

  /** The `taskId` query parameter is truthy: present and not empty. */
  predicate Given(taskId: Option<string>) {
    taskId.Some? && taskId.value != ""
  }

  /** Where the page sends the browser: it stays, or goes to the dashboard, with the
      `completed=true` query when the task was finished. */
  datatype Navigation = Stay | ToDashboard(taskCompleted: bool)

  /** `formatTime(seconds)`: minutes and seconds, each padded to two digits. */
  function FormatTime(seconds: int): string {
    PadStart(IntToString(seconds / 60), 2, '0') + ":" + PadStart(IntToString(JsRem(seconds, 60)), 2, '0')
  }

  /** For a non-negative time both fields are plain numerals. */
  lemma NonNegativeTime(seconds: int)
    requires seconds >= 0
    ensures FormatTime(seconds) ==
      PadStart(NatToString(seconds / 60), 2, '0') + ":" + PadStart(NatToString(seconds % 60), 2, '0')
  {
  }

  /** Below 100 minutes the display is `mm:ss`: five characters whose two fields read back as
      the minutes and seconds of the input. */
  lemma FormatTimeReadsBack(seconds: int)
    requires 0 <= seconds < 6000
    ensures var out := FormatTime(seconds);
      |out| == 5 && out[2] == ':' &&
      AllDigits(out[..2], 10) && AllDigits(out[3..], 10) &&
      Value(out[3..], 10) < 60 &&
      Value(out[..2], 10) * 60 + Value(out[3..], 10) == seconds
  {
    var q := seconds / 60;
    var r := seconds % 60;
    assert seconds == q * 60 + r;
    var m := PadStart(NatToString(q), 2, '0');
    var d := PadStart(NatToString(r), 2, '0');
    TwoDigits(q);
    TwoDigits(r);
    NonNegativeTime(seconds);
    Fields(m, d);
  }

  class FocusSession {
    var currentTask: Option<Task>
    /** Seconds left; `timeRemaining`. */
    var timeRemaining: int
    var isRunning: bool
    var isPaused: bool
    /** `currentSubtaskIndex` */
    var cursor: nat

    constructor ()
      ensures currentTask == None && timeRemaining == 0 && !isRunning && !isPaused && cursor == 0
    {
      currentTask := None;
      timeRemaining := 0;
      isRunning := false;
      isPaused := false;
      cursor := 0;
    }

    /** The initialising effect: with a task id and a non-empty task list, the task found
        becomes current with its estimated minutes as seconds and the cursor on its first
        incomplete subtask; an unknown id, or no id at all (an empty one included), leaves
        for the dashboard; with an id but no tasks yet the page waits. */
    method Load(tasks: seq<Task>, taskId: Option<string>) returns (nav: Navigation)
      modifies this
      ensures !Given(taskId) ==> nav == ToDashboard(false) && unchanged(this)
      ensures Given(taskId) && tasks == [] ==> nav == Stay && unchanged(this)
      ensures Given(taskId) && tasks != [] && FindTask(tasks, taskId.value).None? ==>
        nav == ToDashboard(false) && unchanged(this)
      ensures Given(taskId) && tasks != [] && FindTask(tasks, taskId.value).Some? ==>
        var t := FindTask(tasks, taskId.value).value;
        nav == Stay && currentTask == Some(t) && timeRemaining == t.estimatedTime * 60 &&
        cursor == InitialCursor(t.subtasks) &&
        isRunning == old(isRunning) && isPaused == old(isPaused)
    {
      if Given(taskId) && |tasks| > 0 {
        var found := FindTask(tasks, taskId.value);
        if found.Some? {
          var t := found.value;
          currentTask := found;
          timeRemaining := t.estimatedTime * 60;
          var first := NextIncomplete(t.subtasks, 0);
          cursor := if first.Some? then first.value else 0;
          nav := Stay;
        } else {
          nav := ToDashboard(false);
        }
      } else if !Given(taskId) {
        nav := ToDashboard(false);
      } else {
        nav := Stay;
      }
    }

    /** One second of the interval. The interval exists only while the timer runs unpaused
        with time left; the last second sets the time to 0 and stops the timer. */
    method Tick()
      modifies this
      ensures !(old(isRunning) && !old(isPaused) && old(timeRemaining) > 0) ==> unchanged(this)
      ensures old(isRunning) && !old(isPaused) && old(timeRemaining) > 1 ==>
        timeRemaining == old(timeRemaining) - 1 && isRunning && !isPaused
      ensures old(isRunning) && !old(isPaused) && old(timeRemaining) == 1 ==>
        timeRemaining == 0 && !isRunning && !isPaused
      ensures old(timeRemaining) >= 0 ==> timeRemaining >= 0
      ensures currentTask == old(currentTask) && cursor == old(cursor)
    {
      if isRunning && !isPaused && timeRemaining > 0 {
        if timeRemaining <= 1 {
          isRunning := false;
          timeRemaining := 0;
        } else {
          timeRemaining := timeRemaining - 1;
        }
      }
    }

    /** `toggleTimer`: a stopped timer starts unpaused; a running one flips only its pause. */
    method ToggleTimer()
      modifies this
      ensures !old(isRunning) ==> isRunning && !isPaused
      ensures old(isRunning) ==> isRunning && isPaused == !old(isPaused)
      ensures timeRemaining == old(timeRemaining) && currentTask == old(currentTask) && cursor == old(cursor)
    {
      if !isRunning {
        isRunning := true;
        isPaused := false;
      } else {
        isPaused := !isPaused;
      }
    }

    /** `finishEarly`: the timer stops with no time left. */
    method FinishEarly()
      modifies this
      ensures !isRunning && timeRemaining == 0
      ensures isPaused == old(isPaused) && currentTask == old(currentTask) && cursor == old(cursor)
    {
      isRunning := false;
      timeRemaining := 0;
    }

    /** `completeCurrentSubtask` for the signed-in user `user`. The subtask at the cursor is
        marked completed on the object the current task shares, so the current task shows
        it whether or not the write succeeds. The write sends the subtasks and whether all
        are complete. On success the task takes that flag too, and the page leaves when all
        are complete, moves the cursor to the next incomplete subtask after it, or leaves
        when there is none; on failure flag and cursor stay. */
    method CompleteCurrentSubtask(user: Option<string>, table: TaskService.TaskTable, error: Option<string>)
      returns (nav: Navigation)
      modifies this, table
      ensures old(currentTask).None? || user.None? ==> nav == Stay && unchanged(this) && unchanged(table)
      ensures old(currentTask).Some? && user.Some? ==>
        var t := old(currentTask).value;
        var updated := Marked(t.subtasks, old(cursor));
        var all := AllSubtasksCompleted(updated);
        table.rows == (if error.None?
          then TaskService.UpdatedRows(old(table.rows), t.id, user.value,
                 TaskService.TaskUpdates(Some(all), Some(updated), None, None, None))
          else old(table.rows)) &&
        timeRemaining == old(timeRemaining) && isRunning == old(isRunning) && isPaused == old(isPaused) &&
        (error.Some? ==> nav == Stay && currentTask == Some(t.(subtasks := updated)) && cursor == old(cursor)) &&
        (error.None? ==> currentTask == Some(t.(subtasks := updated, completed := all))) &&
        (error.None? && all ==> nav == ToDashboard(true) && cursor == old(cursor)) &&
        (error.None? && !all ==> match NextIncomplete(updated, old(cursor) + 1)
          case Some(next) => nav == Stay && cursor == next
          case None => nav == ToDashboard(false) && cursor == old(cursor))
    {
      if currentTask.None? || user.None? {
        return Stay;
      }
      var t := currentTask.value;
      var updated := t.subtasks;
      if cursor < |updated| {
        updated := updated[cursor := updated[cursor].(completed := true)];
      }
      currentTask := Some(t.(subtasks := updated));
      var all := AllSubtasksCompleted(updated);
      var r := table.UpdateTask(t.id, TaskService.TaskUpdates(Some(all), Some(updated), None, None, None), user.value, error);
      if r.Failure? {
        return Stay;
      }
      currentTask := Some(t.(subtasks := updated, completed := all));
      if all {
        return ToDashboard(true);
      }
      var next := NextIncomplete(updated, cursor + 1);
      if next.Some? {
        cursor := next.value;
        nav := Stay;
      } else {
        nav := ToDashboard(false);
      }
    }
  }

  /** The subtasks with the one at `i` marked completed, when there is one. */
  function Marked(subtasks: seq<SubTask>, i: nat): (r: seq<SubTask>)
    ensures |r| == |subtasks|
    ensures i < |subtasks| ==> r[i] == subtasks[i].(completed := true)
    ensures forall k :: 0 <= k < |subtasks| && k != i ==> r[k] == subtasks[k]
  {
    if i < |subtasks| then subtasks[i := subtasks[i].(completed := true)] else subtasks
  }

  /** Completing the subtask at the cursor leaves every other subtask's completion as it was,
      and the task counts as complete exactly when no other subtask is still open. */
  lemma MarkedCompletesOnlyTheCursor(subtasks: seq<SubTask>, i: nat)
    requires i < |subtasks|
    ensures Marked(subtasks, i)[i].completed
    ensures AllSubtasksCompleted(Marked(subtasks, i)) <==>
      forall k :: 0 <= k < |subtasks| && k != i ==> subtasks[k].completed
  {
  }
}
