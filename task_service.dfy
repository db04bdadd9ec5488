/** The `tasks` table and the service functions over it: saving generated tasks, reading a
    user's tasks back, updating and deleting one task. The table is a sequence of rows held by
    a `TaskTable` object; the database's own answers (an insert or update rejected, the rows a
    query returns) come in as parameters. */
module TaskService {
  import opened Wrappers
  import opened Types
  import Strings
  import Seqs

  /** A row of the `tasks` table; the `subtasks` column may be null. */
  datatype Row = Row(
    id: string,
    userId: string,
    title: string,
    category: string,
    estimatedTime: int,
    subtasks: Option<seq<SubTask>>,
    completed: bool,
    createdAt: string)

  /** The row `saveTasks` inserts for a task it built. */
  function RowOf(t: Task, userId: string): Row {
    Row(t.id, userId, t.title, t.category, t.estimatedTime, Some(t.subtasks), t.completed, t.createdAt)
  }

  /** The conversion `getUserTasks` applies to each row returned: the column names mapped back
      to the task's, a null subtask column read as no subtasks. */
  function TaskOf(row: Row): Task {
    Task(row.id, row.title, row.estimatedTime, row.category,
         if row.subtasks.Some? then row.subtasks.value else [], row.completed, row.createdAt)
  }

  /** The rows inserted for the tasks `ts`, in order. */
  function RowsOf(ts: seq<Task>, userId: string): (r: seq<Row>)
    ensures |r| == |ts|
    ensures forall i :: 0 <= i < |ts| ==> r[i] == RowOf(ts[i], userId)
  {
    seq(|ts|, i requires 0 <= i < |ts| => RowOf(ts[i], userId))
  }

  /** One more task adds its row at the end. */
  lemma RowsOfAppend(ts: seq<Task>, t: Task, userId: string)
    ensures RowsOf(ts + [t], userId) == RowsOf(ts, userId) + [RowOf(t, userId)]
  {
    assert RowsOf(ts + [t], userId) == RowsOf(ts, userId) + [RowOf(t, userId)];
  }

  /** A row `saveTasks` wrote reads back as the task it saved. */
  lemma RowReadsBack(t: Task, userId: string)
    ensures RowOf(t, userId).userId == userId
    ensures TaskOf(RowOf(t, userId)) == t
  {
  }

  /** `saveTasks` materialisation. `generateId` is the oracle `mint`: its k-th call (from 0)
      returns `mint(k)`. Each task calls it once per subtask and then once for the task
      itself, so the ids the first `k` tasks consume number `IdsBefore(tasks, k)`. */
  function IdsBefore(tasks: seq<Task>, k: nat): nat
    requires k <= |tasks|
  {
    if k == 0 then 0 else IdsBefore(tasks, k - 1) + |tasks[k - 1].subtasks| + 1
  }

  /** The subtasks of a saved task, drawing ids from `mint(base)` on. */
  function FreshSubtasks(subtasks: seq<SubTask>, base: nat, mint: nat -> string): seq<SubTask> {
    seq(|subtasks|, j requires 0 <= j < |subtasks| => SubTask(mint(base + j), subtasks[j].title, false))
  }

  /** The task object `saveTasks` builds from the input `t`; `createdAt` is the clock reading. */
  function Materialised(t: Task, base: nat, createdAt: string, mint: nat -> string): Task {
    Task(mint(base + |t.subtasks|), t.title, t.estimatedTime, t.category,
         FreshSubtasks(t.subtasks, base, mint), false, createdAt)
  }

  /** The tasks `saveTasks` has built once the first `n` inputs are inserted; `clock(k)` is the
      time read while building task `k`. */
  function Saved(tasks: seq<Task>, n: nat, mint: nat -> string, clock: nat -> string): (r: seq<Task>)
    requires n <= |tasks|
    ensures |r| == n
  {
    if n == 0 then []
    else Saved(tasks, n - 1, mint, clock) + [Built(tasks, n - 1, mint, clock)]
  }

  /** Task `k` as `saveTasks` builds it, its ids drawn after those of the tasks before it. */
  function Built(tasks: seq<Task>, k: nat, mint: nat -> string, clock: nat -> string): Task
    requires k < |tasks|
  {
    Materialised(tasks[k], IdsBefore(tasks, k), clock(k), mint)
  }

  lemma SavedStep(tasks: seq<Task>, i: nat, mint: nat -> string, clock: nat -> string)
    requires i < |tasks|
    ensures Saved(tasks, i + 1, mint, clock) == Saved(tasks, i, mint, clock) + [Built(tasks, i, mint, clock)]
    ensures IdsBefore(tasks, i + 1) == IdsBefore(tasks, i) + |tasks[i].subtasks| + 1
  {
  }

  /** The index of the first insert from `k` on that the database rejects (`insert(i)` is the
      error it reports for the i-th insert), or `n` when it accepts them all. */
  function FirstRejected(insert: nat -> Option<string>, n: nat, k: nat): (r: nat)
    requires k <= n
    ensures k <= r <= n
    ensures forall i :: k <= i < r ==> insert(i).None?
    ensures r < n ==> insert(r).Some?
    decreases n - k
  {
    if k == n || insert(k).Some? then k else FirstRejected(insert, n, k + 1)
  }

  /** The first rejection is where the accepted run ends. */
  lemma {:induction false} FirstRejectedIs(insert: nat -> Option<string>, n: nat, k: nat, i: nat)
    requires k <= i <= n
    requires forall j :: k <= j < i ==> insert(j).None?
    requires i < n ==> insert(i).Some?
    ensures FirstRejected(insert, n, k) == i
    decreases i - k
  {
    if k < i {
      FirstRejectedIs(insert, n, k + 1, i);
    }
  }

  function SaveError(message: string): string {
    "保存任务失败: " + message
  }

  /** One saved task per input, in input order, each a copy of its input as `CopiesInput`
      describes. */
  lemma {:induction false} SavedCopiesInputs(tasks: seq<Task>, n: nat, mint: nat -> string, clock: nat -> string)
    requires n <= |tasks|
    ensures forall k :: 0 <= k < n ==> CopiesInput(Saved(tasks, n, mint, clock)[k], tasks[k], clock(k))
  {
    if n > 0 {
      SavedCopiesInputs(tasks, n - 1, mint, clock);
      var before := Saved(tasks, n - 1, mint, clock);
      var last := Built(tasks, n - 1, mint, clock);
      assert Saved(tasks, n, mint, clock) == before + [last];
      BuiltCopiesInput(tasks, n - 1, mint, clock);
      forall k | 0 <= k < n
        ensures CopiesInput(Saved(tasks, n, mint, clock)[k], tasks[k], clock(k))
      {
        if k < n - 1 {
          assert Saved(tasks, n, mint, clock)[k] == before[k];
        }
      }
    }
  }

  /** A saved task copies title, category and estimated time from its input, is not
      completed and is stamped with its clock reading; each subtask keeps only its title and
      is not completed, and the subtask count is kept. */
  predicate CopiesInput(s: Task, t: Task, stamp: string) {
    s.title == t.title && s.category == t.category &&
    s.estimatedTime == t.estimatedTime && !s.completed && s.createdAt == stamp &&
    |s.subtasks| == |t.subtasks| &&
    forall j :: 0 <= j < |s.subtasks| ==> s.subtasks[j].title == t.subtasks[j].title && !s.subtasks[j].completed
  }

  lemma BuiltCopiesInput(tasks: seq<Task>, k: nat, mint: nat -> string, clock: nat -> string)
    requires k < |tasks|
    ensures CopiesInput(Built(tasks, k, mint, clock), tasks[k], clock(k))
  {
  }

  /** The tasks saved by a shorter run are a prefix of those saved by a longer one. */
  lemma {:induction false} SavedPrefix(tasks: seq<Task>, m: nat, n: nat, mint: nat -> string, clock: nat -> string)
    requires m <= n <= |tasks|
    ensures Saved(tasks, n, mint, clock)[..m] == Saved(tasks, m, mint, clock)
    decreases n - m
  {
    if m < n {
      SavedPrefix(tasks, m, n - 1, mint, clock);
      assert Saved(tasks, n, mint, clock)[..n - 1] == Saved(tasks, n - 1, mint, clock);
    }
  }

  /** The fields `updateTask` accepts; `None` is a field left undefined. */
  datatype TaskUpdates = TaskUpdates(
    completed: Option<bool>,
    subtasks: Option<seq<SubTask>>,
    title: Option<string>,
    category: Option<string>,
    estimatedTime: Option<int>)

  /** A column value of the update payload. */
  datatype Value = Flag(b: bool) | Items(items: seq<SubTask>) | Text(s: string) | Number(n: int)

  /** The column names `dbUpdates` may hold. */
  const Columns: set<string> := {"completed", "subtasks", "title", "category", "estimated_time"}

  /** The payload holds exactly the defined fields, under their column names. */
  predicate Encodes(db: map<string, Value>, u: TaskUpdates) {
    db.Keys <= Columns &&
    ("completed" in db <==> u.completed.Some?) &&
    ("completed" in db ==> db["completed"] == Flag(u.completed.value)) &&
    ("subtasks" in db <==> u.subtasks.Some?) &&
    ("subtasks" in db ==> db["subtasks"] == Items(u.subtasks.value)) &&
    ("title" in db <==> u.title.Some?) &&
    ("title" in db ==> db["title"] == Text(u.title.value)) &&
    ("category" in db <==> u.category.Some?) &&
    ("category" in db ==> db["category"] == Text(u.category.value)) &&
    ("estimated_time" in db <==> u.estimatedTime.Some?) &&
    ("estimated_time" in db ==> db["estimated_time"] == Number(u.estimatedTime.value))
  }

  /** `dbUpdates`, filled field by field. */
  method BuildDbUpdates(u: TaskUpdates) returns (db: map<string, Value>)
    ensures Encodes(db, u)
  {
    db := map[];
    if u.completed.Some? {
      db := db["completed" := Flag(u.completed.value)];
    }
    if u.subtasks.Some? {
      db := db["subtasks" := Items(u.subtasks.value)];
    }
    if u.title.Some? {
      db := db["title" := Text(u.title.value)];
    }
    if u.category.Some? {
      db := db["category" := Text(u.category.value)];
    }
    if u.estimatedTime.Some? {
      db := db["estimated_time" := Number(u.estimatedTime.value)];
    }
  }

  /** The row after the database writes the payload's columns into it. */
  function Written(row: Row, db: map<string, Value>): Row {
    row.(
      completed := if "completed" in db && db["completed"].Flag? then db["completed"].b else row.completed,
      subtasks := if "subtasks" in db && db["subtasks"].Items? then Some(db["subtasks"].items) else row.subtasks,
      title := if "title" in db && db["title"].Text? then db["title"].s else row.title,
      category := if "category" in db && db["category"].Text? then db["category"].s else row.category,
      estimatedTime := if "estimated_time" in db && db["estimated_time"].Number? then db["estimated_time"].n else row.estimatedTime)
  }

  /** The row with the defined fields of `u` set and every other column as it was. */
  function Patched(row: Row, u: TaskUpdates): Row {
    row.(
      completed := if u.completed.Some? then u.completed.value else row.completed,
      subtasks := if u.subtasks.Some? then Some(u.subtasks.value) else row.subtasks,
      title := if u.title.Some? then u.title.value else row.title,
      category := if u.category.Some? then u.category.value else row.category,
      estimatedTime := if u.estimatedTime.Some? then u.estimatedTime.value else row.estimatedTime)
  }

  /** Writing the payload built from `u` is patching the row with `u`. */
  lemma WrittenIsPatched(row: Row, db: map<string, Value>, u: TaskUpdates)
    requires Encodes(db, u)
    ensures Written(row, db) == Patched(row, u)
  {
  }

  /** The filter `.eq('id', taskId).eq('user_id', userId)`. */
  predicate Matches(row: Row, taskId: string, userId: string) {
    row.id == taskId && row.userId == userId
  }

  /** The table after a successful `updateTask`. */
  function UpdatedRows(rows: seq<Row>, taskId: string, userId: string, u: TaskUpdates): (r: seq<Row>)
    ensures |r| == |rows|
    ensures forall i :: 0 <= i < |rows| && Matches(rows[i], taskId, userId) ==> r[i] == Patched(rows[i], u)
    ensures forall i :: 0 <= i < |rows| && !Matches(rows[i], taskId, userId) ==> r[i] == rows[i]
  {
    Seqs.Map(rows, row => if Matches(row, taskId, userId) then Patched(row, u) else row)
  }

  /** The table after a successful `deleteTask`. */
  function RemainingRows(rows: seq<Row>, taskId: string, userId: string): seq<Row> {
    Seqs.Filter(rows, (row: Row) => !Matches(row, taskId, userId))
  }

  /** `deleteTask` removes exactly the rows of that id and that user, and no others. */
  lemma DeleteRemovesOnlyMatching(rows: seq<Row>, taskId: string, userId: string)
    ensures forall row :: row in RemainingRows(rows, taskId, userId) <==> row in rows && !Matches(row, taskId, userId)
    ensures multiset(RemainingRows(rows, taskId, userId)) + multiset(Seqs.Filter(rows, (row: Row) => Matches(row, taskId, userId))) == multiset(rows)
  {
    Seqs.FilterMembers(rows, (row: Row) => !Matches(row, taskId, userId));
    Seqs.FilterPartition(rows, (row: Row) => !Matches(row, taskId, userId), (row: Row) => Matches(row, taskId, userId));
  }

  class TaskTable {
    var rows: seq<Row>

    constructor ()
      ensures rows == []
    {
      rows := [];
    }

    /** `saveTasks(tasks, userId)`: inserts one row per task, in order, and stops at the
        first rejected insert with its error; the rows inserted before it stay. */
    method SaveTasks(tasks: seq<Task>, userId: string, mint: nat -> string, clock: nat -> string,
                     insert: nat -> Option<string>) returns (r: Result<seq<Task>, string>)
      modifies this
      ensures rows == old(rows) + RowsOf(Saved(tasks, FirstRejected(insert, |tasks|, 0), mint, clock), userId)
      ensures r.Success? <==> FirstRejected(insert, |tasks|, 0) == |tasks|
      ensures r.Success? ==> r.value == Saved(tasks, |tasks|, mint, clock)
      ensures r.Failure? ==> r.error == SaveError(insert(FirstRejected(insert, |tasks|, 0)).value)
    {
      var saved, n := InsertUntilRejected(tasks, userId, mint, clock, insert);
      if n < |tasks| {
        r := Failure(SaveError(insert(n).value));
      } else {
        r := Success(saved);
      }
    }

    /** The loop of `saveTasks`: the tasks inserted before the first rejected one, and the
        position where it stopped. */
    method InsertUntilRejected(tasks: seq<Task>, userId: string, mint: nat -> string, clock: nat -> string,
                               insert: nat -> Option<string>) returns (saved: seq<Task>, n: nat)
      modifies this
      ensures n == FirstRejected(insert, |tasks|, 0)
      ensures saved == Saved(tasks, n, mint, clock)
      ensures rows == old(rows) + RowsOf(saved, userId)
    {
      saved := [];
      n := 0;
      while n < |tasks|
        invariant n <= |tasks|
        invariant forall k :: 0 <= k < n ==> insert(k).None?
        invariant saved == Saved(tasks, n, mint, clock)
        invariant rows == old(rows) + RowsOf(saved, userId)
      {
        var task := Built(tasks, n, mint, clock);
        var inserted := Insert(RowOf(task, userId), insert(n));
        if !inserted {
          FirstRejectedIs(insert, |tasks|, 0, n);
          return;
        }
        SavedStep(tasks, n, mint, clock);
        RowsOfAppend(saved, task, userId);
        Seqs.AppendAssoc(old(rows), RowsOf(saved, userId), RowOf(task, userId));
        saved := saved + [task];
        n := n + 1;
      }
      FirstRejectedIs(insert, |tasks|, 0, |tasks|);
    }

    /** One `insert`: the row is added unless the database reports an error. */
    method Insert(row: Row, error: Option<string>) returns (ok: bool)
      modifies this
      ensures ok <==> error.None?
      ensures rows == if ok then old(rows) + [row] else old(rows)
    {
      ok := error.None?;
      if ok {
        rows := rows + [row];
      }
    }

    /** `updateTask(taskId, updates, userId)`: one update of the rows of that id and user,
        unless the database reports an error. */
    method UpdateTask(taskId: string, u: TaskUpdates, userId: string, error: Option<string>)
      returns (r: Result<(), string>)
      modifies this
      ensures error.None? ==> r.Success? && rows == UpdatedRows(old(rows), taskId, userId, u)
      ensures error.Some? ==> r == Failure("更新任务失败: " + error.value) && rows == old(rows)
    {
      var db := BuildDbUpdates(u);
      if error.Some? {
        return Failure("更新任务失败: " + error.value);
      }
      forall row | true
        ensures Written(row, db) == Patched(row, u)
      {
        WrittenIsPatched(row, db, u);
      }
      rows := Seqs.Map(rows, row => if Matches(row, taskId, userId) then Written(row, db) else row);
      r := Success(());
    }

    /** `deleteTask(taskId, userId)`: deletes the rows of that id and user, unless the
        database reports an error. */
    method DeleteTask(taskId: string, userId: string, error: Option<string>) returns (r: Result<(), string>)
      modifies this
      ensures error.None? ==> r.Success? && rows == RemainingRows(old(rows), taskId, userId)
      ensures error.Some? ==> r == Failure("删除任务失败: " + error.value) && rows == old(rows)
    {
      if error.Some? {
        return Failure("删除任务失败: " + error.value);
      }
      rows := RemainingRows(rows, taskId, userId);
      r := Success(());
    }
  }

  /** The rows of one user, in table order: `.eq('user_id', userId)`. */
  function Owned(rows: seq<Row>, userId: string): seq<Row> {
    Seqs.Filter(rows, (row: Row) => row.userId == userId)
  }

  /** What the query of `getUserTasks` may return: the user's rows, each as often as it is
      stored, newest `created_at` first. */
  predicate AnswersQuery(rows: seq<Row>, userId: string, data: seq<Row>) {
    multiset(data) == multiset(Owned(rows, userId)) &&
    forall i, j :: 0 <= i < j < |data| ==> Strings.LexLe(data[j].createdAt, data[i].createdAt)
  }

  /** `getUserTasks`, from the query's `data` (null is `None`) and `error`. */
  function UserTasks(data: Option<seq<Row>>, error: Option<string>): (r: Result<seq<Task>, string>)
    ensures error.Some? ==> r == Failure("获取任务失败: " + error.value)
    ensures error.None? && data.None? ==> r == Success([])
    ensures error.None? && data.Some? ==>
      r.Success? && |r.value| == |data.value| &&
      forall i :: 0 <= i < |data.value| ==> r.value[i] == TaskOf(data.value[i])
  {
    if error.Some? then Failure("获取任务失败: " + error.value)
    else Success(Seqs.Map(if data.Some? then data.value else [], TaskOf))
  }

  /** A correct query answer holds exactly the user's rows, as many as the table has. */
  lemma QueryHoldsTheUsersRows(rows: seq<Row>, userId: string, data: seq<Row>)
    requires AnswersQuery(rows, userId, data)
    ensures |data| == |Owned(rows, userId)|
    ensures forall row :: row in data <==> row in rows && row.userId == userId
  {
    var owned := Owned(rows, userId);
    Seqs.FilterMembers(rows, (row: Row) => row.userId == userId);
    assert |data| == |multiset(data)| == |multiset(owned)| == |owned|;
    forall row
      ensures row in data <==> row in owned
    {
      assert row in data <==> row in multiset(data);
      assert row in owned <==> row in multiset(owned);
    }
  }

  /** The tasks of a correct query answer come newest first. */
  lemma UserTasksNewestFirst(rows: seq<Row>, userId: string, data: seq<Row>)
    requires AnswersQuery(rows, userId, data)
    ensures UserTasks(Some(data), None).Success?
    ensures var r := UserTasks(Some(data), None).value;
      forall i, j :: 0 <= i < j < |r| ==> Strings.LexLe(r[j].createdAt, r[i].createdAt)
  {
    var r := UserTasks(Some(data), None).value;
    forall i, j | 0 <= i < j < |r|
      ensures Strings.LexLe(r[j].createdAt, r[i].createdAt)
    {
      assert r[i].createdAt == data[i].createdAt;
      assert r[j].createdAt == data[j].createdAt;
    }
  }
}
