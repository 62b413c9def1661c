/** The front end's task records (types/index.ts). */
module TaskTypes {
  import opened Common

  datatype TaskStatus = Todo | InProgress | Done
  datatype TaskPriority = Low | Medium | High

  datatype Task = Task(
    id: int,
    userId: int,
    title: string,
    description: Option<string>,
    status: TaskStatus,
    priority: TaskPriority,
    dueDate: Option<string>,
    createdAt: string,
    updatedAt: string)

  /** The body the task form sends to create or update a task. */
  datatype CreateTaskData = CreateTaskData(
    title: string,
    description: Option<string>,
    status: Option<TaskStatus>,
    priority: Option<TaskPriority>,
    dueDate: Option<string>)
}
