/** The top-level application component: it turns the structured JSON of the input screen
    into draft tasks, moves between the input, loading, result and dashboard screens, and
    saves confirmed tasks through the tasks table. `JSON.parse`, the clock and the engine's
    error messages are parameters. */
module MindStreamApp {
  import opened Wrappers
  import opened Json
  import opened Types
  import TaskService
  import opened LoadingPage

  /** A thrown `TypeError`: a property read on `null`, or `.map` called on a value that is
      not an array (`undefined`, or a value that has no `map` function). */
  datatype Fault = NullRead(key: string) | NotArray(key: string, found: Read)

  /** Why `handleInputComplete` failed: `JSON.parse` threw a `SyntaxError` with a message,
      or the conversion threw a `TypeError`. */
  datatype InputError = SyntaxError(message: string) | TypeError(fault: Fault)

  /** A subtask as the conversion builds it. The title is whatever `subtask.title` read:
      the declared `Task` type is not checked at run time. */
  datatype DraftSubTask = DraftSubTask(id: string, title: Read, completed: bool)

  /** A task as the conversion builds it, with the raw reads of the payload fields. */
  datatype DraftTask = DraftTask(
    id: string,
    title: Read,
    category: Read,
    estimatedTime: Read,
    subtasks: seq<DraftSubTask>,
    completed: bool,
    createdAt: string)

  /** `taskData.subtasks.map(subtask => ({ id: '', title: subtask.title, completed: false }))`
      over the array's items: every item that is not `null` gives a subtask with an empty id,
      its title and not completed, whatever the input said; a `null` item throws. */
  function DraftSubtasks(items: seq<Json>): (r: Result<seq<DraftSubTask>, Fault>)
    ensures r.Success? <==> forall j :: 0 <= j < |items| ==> items[j] != JNull
    ensures r.Success? ==> |r.value| == |items|
    ensures r.Success? ==>
      forall j :: 0 <= j < |items| ==> r.value[j] == DraftSubTask("", Member(items[j], "title"), false)
    ensures r.Failure? ==> r.error == NullRead("title")
  {
    if items == [] then Success([])
    else if items[0] == JNull then Failure(NullRead("title"))
    else
      match DraftSubtasks(items[1..])
      case Failure(f) => Failure(f)
      case Success(rest) => Success([DraftSubTask("", Member(items[0], "title"), false)] + rest)
  }

  /** The object literal built for one payload task, with `createdAt` the clock reading. The
      title is read first, so a `null` task throws there; then `subtasks` must be an array. */
  function DraftOf(taskData: Json, createdAt: string): (r: Result<DraftTask, Fault>)
    ensures taskData == JNull ==> r == Failure(NullRead("title"))
    ensures taskData != JNull && !IsArray(Member(taskData, "subtasks")) ==>
      r == Failure(NotArray("subtasks", Member(taskData, "subtasks")))
    ensures r.Success? ==>
      var items := Member(taskData, "subtasks").value.items;
      IsArray(Member(taskData, "subtasks")) && DraftSubtasks(items).Success? &&
      r.value == DraftTask("", Member(taskData, "title"), Member(taskData, "category"),
        Member(taskData, "estimatedTime"), DraftSubtasks(items).value, false, createdAt)
  {
    if taskData == JNull then Failure(NullRead("title"))
    else
      var subs := Member(taskData, "subtasks");
      if !IsArray(subs) then Failure(NotArray("subtasks", subs))
      else
        match DraftSubtasks(subs.value.items)
        case Failure(f) => Failure(f)
        case Success(st) =>
          Success(DraftTask("", Member(taskData, "title"), Member(taskData, "category"),
            Member(taskData, "estimatedTime"), st, false, createdAt))
  }

  /** `structuredData.tasks.map(...)` on the items from position `i` on; item k reads the
      clock as the k-th `new Date()`. It succeeds when every item converts, keeping count and
      order, and otherwise stops with the first item's fault. */
  function DraftTasks(items: seq<Json>, clock: nat -> string, i: nat): (r: Result<seq<DraftTask>, Fault>)
    requires i <= |items|
    ensures r.Success? <==> forall k :: i <= k < |items| ==> DraftOf(items[k], clock(k)).Success?
    ensures r.Success? ==> |r.value| == |items| - i
    ensures r.Success? ==>
      forall k :: i <= k < |items| ==> r.value[k - i] == DraftOf(items[k], clock(k)).value
    decreases |items| - i
  {
    if i == |items| then Success([])
    else
      match DraftOf(items[i], clock(i))
      case Failure(f) => Failure(f)
      case Success(d) =>
        match DraftTasks(items, clock, i + 1)
        case Failure(f) => Failure(f)
        case Success(rest) => Success([d] + rest)
  }

  /** The conversion stops with the fault of the first item that does not convert. */
  lemma {:induction false} DraftTasksFirstFault(items: seq<Json>, clock: nat -> string, i: nat, j: nat)
    requires i <= j < |items|
    requires DraftOf(items[j], clock(j)).Failure?
    requires forall k :: i <= k < j ==> DraftOf(items[k], clock(k)).Success?
    ensures DraftTasks(items, clock, i) == Failure(DraftOf(items[j], clock(j)).error)
    decreases j - i
  {
    if i < j {
      DraftTasksFirstFault(items, clock, i + 1, j);
    }
  }

  /** `JSON.parse(input)` followed by the conversion. */
  function ParseInput(input: string, parse: string -> Result<Json, string>, clock: nat -> string):
    (r: Result<seq<DraftTask>, InputError>)
    ensures parse(input).Failure? ==> r == Failure(SyntaxError(parse(input).error))
    ensures parse(input).Success? && parse(input).value == JNull ==> r == Failure(TypeError(NullRead("tasks")))
    ensures parse(input).Success? && parse(input).value != JNull && !IsArray(Member(parse(input).value, "tasks")) ==>
      r == Failure(TypeError(NotArray("tasks", Member(parse(input).value, "tasks"))))
    ensures r.Success? ==>
      var items := Member(parse(input).value, "tasks").value.items;
      DraftTasks(items, clock, 0).Success? && r.value == DraftTasks(items, clock, 0).value
  {
    match parse(input)
    case Failure(message) => Failure(SyntaxError(message))
    case Success(data) =>
      var tasks := Member(data, "tasks");
      if tasks == Throws then Failure(TypeError(NullRead("tasks")))
      else if !IsArray(tasks) then Failure(TypeError(NotArray("tasks", tasks)))
      else
        match DraftTasks(tasks.value.items, clock, 0)
        case Failure(f) => Failure(TypeError(f))
        case Success(ds) => Success(ds)
  }

  /** What the user sees of a successful conversion: one draft per payload task, in order,
      with an empty id, the payload's title, category and estimated time, not completed, and
      one subtask per payload subtask with an empty id, its title and not completed. */
  lemma ConvertedTasksFollowPayload(input: string, parse: string -> Result<Json, string>, clock: nat -> string)
    requires ParseInput(input, parse, clock).Success?
    ensures var items := Member(parse(input).value, "tasks").value.items;
      var ds := ParseInput(input, parse, clock).value;
      |ds| == |items| &&
      forall k :: 0 <= k < |items| ==>
        items[k] != JNull && ds[k].id == "" && !ds[k].completed && ds[k].createdAt == clock(k) &&
        ds[k].title == Member(items[k], "title") && ds[k].category == Member(items[k], "category") &&
        ds[k].estimatedTime == Member(items[k], "estimatedTime") &&
        |ds[k].subtasks| == |Member(items[k], "subtasks").value.items| &&
        forall j :: 0 <= j < |ds[k].subtasks| ==>
          ds[k].subtasks[j] == DraftSubTask("", Member(Member(items[k], "subtasks").value.items[j], "title"), false)
  {
    var items := Member(parse(input).value, "tasks").value.items;
    var ds := ParseInput(input, parse, clock).value;
    forall k | 0 <= k < |items|
      ensures items[k] != JNull && ds[k] == DraftOf(items[k], clock(k)).value
    {
      assert DraftOf(items[k], clock(k)).Success?;
    }
  }

  /** A payload object without a `tasks` array, or with a task whose `subtasks` is missing,
      fails with a `TypeError`. */
  lemma MissingArraysFail(input: string, parse: string -> Result<Json, string>, clock: nat -> string)
    requires parse(input).Success?
    ensures var data := parse(input).value;
      data.JObj? && "tasks" !in data.fields ==>
        ParseInput(input, parse, clock) == Failure(TypeError(NotArray("tasks", Undefined)))
    ensures var data := parse(input).value;
      IsArray(Member(data, "tasks")) &&
      (exists k :: 0 <= k < |Member(data, "tasks").value.items| &&
         Member(Member(data, "tasks").value.items[k], "subtasks") == Undefined) ==>
        ParseInput(input, parse, clock).Failure?
  {
    var data := parse(input).value;
    if IsArray(Member(data, "tasks")) {
      var items := Member(data, "tasks").value.items;
      if exists k :: 0 <= k < |items| && Member(items[k], "subtasks") == Undefined {
        var k :| 0 <= k < |items| && Member(items[k], "subtasks") == Undefined;
        assert DraftOf(items[k], clock(k)).Failure?;
      }
    }
  }

  /** A draft whose payload fields are strings and a number, and whose subtask titles are
      strings, is a `Task` with those values. */
  function Typed(d: DraftTask): (t: Option<Task>)
    ensures t.Some? <==>
      d.title.Found? && d.title.value.JStr? && d.category.Found? && d.category.value.JStr? &&
      d.estimatedTime.Found? && d.estimatedTime.value.JNum? &&
      forall j :: 0 <= j < |d.subtasks| ==> d.subtasks[j].title.Found? && d.subtasks[j].title.value.JStr?
    ensures t.Some? ==>
      t.value.id == d.id && t.value.title == d.title.value.s && t.value.category == d.category.value.s &&
      t.value.estimatedTime == d.estimatedTime.value.n && t.value.completed == d.completed &&
      t.value.createdAt == d.createdAt && |t.value.subtasks| == |d.subtasks| &&
      forall j :: 0 <= j < |d.subtasks| ==>
        t.value.subtasks[j] == SubTask(d.subtasks[j].id, d.subtasks[j].title.value.s, d.subtasks[j].completed)
  {
    match TypedSubtasks(d.subtasks)
    case None => None
    case Some(st) =>
      if d.title.Found? && d.title.value.JStr? && d.category.Found? && d.category.value.JStr? &&
         d.estimatedTime.Found? && d.estimatedTime.value.JNum?
      then Some(Task(d.id, d.title.value.s, d.estimatedTime.value.n, d.category.value.s, st, d.completed, d.createdAt))
      else None
  }

  function TypedSubtasks(ds: seq<DraftSubTask>): (r: Option<seq<SubTask>>)
    ensures r.Some? <==> forall j :: 0 <= j < |ds| ==> ds[j].title.Found? && ds[j].title.value.JStr?
    ensures r.Some? ==> |r.value| == |ds|
    ensures r.Some? ==>
      forall j :: 0 <= j < |ds| ==> r.value[j] == SubTask(ds[j].id, ds[j].title.value.s, ds[j].completed)
  {
    if ds == [] then Some([])
    else if !(ds[0].title.Found? && ds[0].title.value.JStr?) then None
    else
      match TypedSubtasks(ds[1..])
      case None => None
      case Some(rest) => Some([SubTask(ds[0].id, ds[0].title.value.s, ds[0].completed)] + rest)
  }

  /** A payload task of the shape the prompt asks for and the `Task[]` annotation of the
      conversion assumes: a string title and category, a number for the time, and an array
      of subtasks with string titles. */
  predicate WellTypedItem(item: Json) {
    item.JObj? &&
    "title" in item.fields && item.fields["title"].JStr? &&
    "category" in item.fields && item.fields["category"].JStr? &&
    "estimatedTime" in item.fields && item.fields["estimatedTime"].JNum? &&
    "subtasks" in item.fields && item.fields["subtasks"].JArr? &&
    forall j :: 0 <= j < |item.fields["subtasks"].items| ==>
      var st := item.fields["subtasks"].items[j];
      st.JObj? && "title" in st.fields && st.fields["title"].JStr?
  }

  /** When every payload task has the declared shape, the conversion succeeds and every
      draft is a `Task` carrying the payload's values: what the result screen and
      `handleConfirmTasks` receive is then typed as declared. */
  lemma WellTypedPayloadGivesTasks(input: string, parse: string -> Result<Json, string>, clock: nat -> string)
    requires parse(input).Success? && IsArray(Member(parse(input).value, "tasks"))
    requires forall k :: 0 <= k < |Member(parse(input).value, "tasks").value.items| ==>
      WellTypedItem(Member(parse(input).value, "tasks").value.items[k])
    ensures ParseInput(input, parse, clock).Success?
    ensures var items := Member(parse(input).value, "tasks").value.items;
      var ds := ParseInput(input, parse, clock).value;
      |ds| == |items| &&
      forall k :: 0 <= k < |ds| ==>
        var t := Typed(ds[k]);
        t.Some? && t.value.id == "" && !t.value.completed && t.value.createdAt == clock(k) &&
        t.value.title == items[k].fields["title"].s &&
        t.value.category == items[k].fields["category"].s &&
        t.value.estimatedTime == items[k].fields["estimatedTime"].n &&
        |t.value.subtasks| == |items[k].fields["subtasks"].items| &&
        forall j :: 0 <= j < |t.value.subtasks| ==>
          t.value.subtasks[j] == SubTask("", items[k].fields["subtasks"].items[j].fields["title"].s, false)
  {
    var items := Member(parse(input).value, "tasks").value.items;
    forall k | 0 <= k < |items|
      ensures DraftOf(items[k], clock(k)).Success?
    {
      var sts := items[k].fields["subtasks"].items;
      assert forall j :: 0 <= j < |sts| ==> sts[j] != JNull;
      assert DraftSubtasks(sts).Success?;
    }
    ConvertedTasksFollowPayload(input, parse, clock);
  }

  /** The task list after `loadUserTasks`: the query's tasks, or the current list when the
      query fails, since the failure is only logged. */
  function Reloaded(current: seq<Task>, data: Option<seq<TaskService.Row>>, queryError: Option<string>):
    (r: seq<Task>)
    ensures queryError.Some? ==> r == current
    ensures queryError.None? ==> r == TaskService.UserTasks(data, queryError).value
  {
    var q := TaskService.UserTasks(data, queryError);
    if q.Success? then q.value else current
  }

  datatype Screen = InputScreen | LoadingScreen | ResultScreen | DashboardScreen | SettingsScreen

  /** The component's state. `user` is the signed-in user's id. */
  class App {
    var currentScreen: Screen
    var loadingStage: LoadingStage
    var tasks: seq<Task>
    var generatedTasks: seq<DraftTask>
    var user: Option<string>
    var error: string
    var transcribedText: string

    constructor ()
      ensures currentScreen == DashboardScreen && loadingStage == Transcribing
      ensures tasks == [] && generatedTasks == [] && user == None && error == "" && transcribedText == ""
    {
      currentScreen := DashboardScreen;
      loadingStage := Transcribing;
      tasks := [];
      generatedTasks := [];
      user := None;
      error := "";
      transcribedText := "";
    }

    /** `handleInputComplete(input, isVoice)`: both kinds of input go to the loading screen
        in stage `structuring`. A conversion that succeeds shows the drafts on the result
        screen; one that throws stays on the loading screen in stage `error`, with the
        message of the error (`message` gives the engine's `TypeError` text). */
    method HandleInputComplete(input: string, isVoice: bool, parse: string -> Result<Json, string>,
                               clock: nat -> string, message: Fault -> string)
      modifies this
      ensures var r := ParseInput(input, parse, clock);
        (r.Success? ==> currentScreen == ResultScreen && loadingStage == Structuring &&
                        generatedTasks == r.value && error == "") &&
        (r.Failure? ==> currentScreen == LoadingScreen && loadingStage == ErrorStage &&
                        generatedTasks == old(generatedTasks) &&
                        error == (match r.error
                                  case SyntaxError(m) => m
                                  case TypeError(f) => message(f)))
      ensures transcribedText == (if isVoice then "" else old(transcribedText))
      ensures tasks == old(tasks) && user == old(user)
    {
      currentScreen := LoadingScreen;
      error := "";
      loadingStage := Structuring;
      if isVoice {
        transcribedText := "";
      }
      var r := ParseInput(input, parse, clock);
      match r
      case Success(ds) =>
        generatedTasks := ds;
        currentScreen := ResultScreen;
      case Failure(e) =>
        error := match e
          case SyntaxError(m) => m
          case TypeError(f) => message(f);
        loadingStage := ErrorStage;
    }

    /** `loadUserTasks(userId)` with the query's answer: the task list is replaced on
        success; a failure is only logged. */
    method LoadUserTasks(data: Option<seq<TaskService.Row>>, queryError: Option<string>)
      modifies this
      ensures tasks == Reloaded(old(tasks), data, queryError)
      ensures currentScreen == old(currentScreen) && loadingStage == old(loadingStage)
      ensures generatedTasks == old(generatedTasks) && user == old(user) && error == old(error)
      ensures transcribedText == old(transcribedText)
    {
      var q := TaskService.UserTasks(data, queryError);
      if q.Success? {
        tasks := q.value;
      }
    }

    /** `handleConfirmTasks(tasksToSave)`: nothing without a user. Otherwise the tasks are
        saved; on success the list is reloaded and the dashboard shown, and a failed save
        stays on the loading screen in stage `error` with the save's message. */
    method HandleConfirmTasks(tasksToSave: seq<Task>, table: TaskService.TaskTable,
                              mint: nat -> string, clock: nat -> string, insert: nat -> Option<string>,
                              data: Option<seq<TaskService.Row>>, queryError: Option<string>)
      modifies this, table
      ensures old(user).None? ==> unchanged(this) && unchanged(table)
      ensures old(user).Some? ==> user == old(user) && generatedTasks == old(generatedTasks)
      ensures old(user).Some? ==>
        var n := TaskService.FirstRejected(insert, |tasksToSave|, 0);
        table.rows == old(table.rows) + TaskService.RowsOf(TaskService.Saved(tasksToSave, n, mint, clock), old(user).value)
      ensures old(user).Some? && TaskService.FirstRejected(insert, |tasksToSave|, 0) == |tasksToSave| ==>
        currentScreen == DashboardScreen && loadingStage == Saving && error == old(error) &&
        tasks == Reloaded(old(tasks), data, queryError)
      ensures old(user).Some? && TaskService.FirstRejected(insert, |tasksToSave|, 0) < |tasksToSave| ==>
        currentScreen == LoadingScreen && loadingStage == ErrorStage && tasks == old(tasks) &&
        error == TaskService.SaveError(insert(TaskService.FirstRejected(insert, |tasksToSave|, 0)).value)
    {
      if user.None? {
        return;
      }
      currentScreen := LoadingScreen;
      loadingStage := Saving;
      var saved := table.SaveTasks(tasksToSave, user.value, mint, clock, insert);
      if saved.Failure? {
        error := saved.error;
        loadingStage := ErrorStage;
        return;
      }
      LoadUserTasks(data, queryError);
      currentScreen := DashboardScreen;
    }

    /** `handleBackToInput`: back to the input screen with the drafts and the error cleared. */
    method HandleBackToInput()
      modifies this
      ensures currentScreen == InputScreen && generatedTasks == [] && error == ""
      ensures loadingStage == old(loadingStage) && tasks == old(tasks) && user == old(user)
      ensures transcribedText == old(transcribedText)
    {
      currentScreen := InputScreen;
      generatedTasks := [];
      error := "";
    }

    /** `handleRetry`: back to the input screen with the error cleared; the drafts stay. */
    method HandleRetry()
      modifies this
      ensures currentScreen == InputScreen && error == ""
      ensures generatedTasks == old(generatedTasks) && loadingStage == old(loadingStage)
      ensures tasks == old(tasks) && user == old(user) && transcribedText == old(transcribedText)
    {
      currentScreen := InputScreen;
      error := "";
    }

    /** `handleNavigate(screen)` for the three screens the navigation offers. */
    method HandleNavigate(screen: Screen)
      requires screen == InputScreen || screen == DashboardScreen || screen == SettingsScreen
      modifies this
      ensures currentScreen == screen
      ensures loadingStage == old(loadingStage) && tasks == old(tasks) && generatedTasks == old(generatedTasks)
      ensures user == old(user) && error == old(error) && transcribedText == old(transcribedText)
    {
      currentScreen := screen;
    }
  }
}
