/** The task records the application passes around. */
module Types {

  datatype SubTask = SubTask(id: string, title: string, completed: bool)

  /** `estimatedTime` is in minutes; `createdAt` an ISO-8601 timestamp. */
  datatype Task = Task(
    id: string,
    title: string,
    estimatedTime: int,
    category: string,
    subtasks: seq<SubTask>,
    completed: bool,
    createdAt: string)

  predicate IsCompleted(st: SubTask) {
    st.completed
  }

  /** `subtasks.every(st => st.completed)` */
  predicate AllSubtasksCompleted(subtasks: seq<SubTask>) {
    forall i :: 0 <= i < |subtasks| ==> subtasks[i].completed
  }
}
