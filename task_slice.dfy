/**
 * The Redux task slice (store/taskSlice.ts): the in-memory page of tasks,
 * the `total` counter, paging and the loading/error flags.
 */
module TaskSlice {
  import opened Common
  import opened TaskTypes

  const FETCH_FAILED: string := "Failed to fetch tasks"
  const CREATE_FAILED: string := "Failed to create task"
  const UPDATE_FAILED: string := "Failed to update task"
  const STATUS_FAILED: string := "Failed to update task status"
  const DELETE_FAILED: string := "Failed to delete task"

  datatype TaskState = TaskState(
    tasks: seq<Task>,
    total: int,
    page: int,
    perPage: int,
    loading: bool,
    error: Option<string>)

  /**
   * The actions the slice handles. A rejected action carries the thrown
   * error's `message`, None when it has none.
   */
  datatype Action =
    | FetchPending | FetchFulfilled(data: seq<Task>, total: int, page: int, perPage: int) | FetchRejected(message: Option<string>)
    | CreatePending | CreateFulfilled(task: Task) | CreateRejected(message: Option<string>)
    | UpdatePending | UpdateFulfilled(task: Task) | UpdateRejected(message: Option<string>)
    | StatusPending | StatusFulfilled(id: int, status: TaskStatus) | StatusRejected(message: Option<string>)
    | DeletePending | DeleteFulfilled(id: int) | DeleteRejected(message: Option<string>)
    | ClearError

  const INITIAL: TaskState := TaskState([], 0, 1, 20, false, None)

  /** `message || fallback`: an absent or empty message gives the fallback. */
  function ErrorText(message: Option<string>, fallback: string): (r: string)
    ensures message.Some? && message.value != "" ==> r == message.value
    ensures message.None? || message.value == "" ==> r == fallback
  {
    if message.Some? && message.value != "" then message.value else fallback
  }

  /** `findIndex`: the first position holding this id, or -1. */
  function IndexOf(tasks: seq<Task>, id: int): (r: int)
    ensures -1 <= r < |tasks|
    ensures r == -1 <==> forall k :: 0 <= k < |tasks| ==> tasks[k].id != id
    ensures r >= 0 ==> tasks[r].id == id && forall k :: 0 <= k < r ==> tasks[k].id != id
    decreases |tasks|
  {
    if tasks == [] then -1
    else if tasks[0].id == id then 0
    else
      var rest := IndexOf(tasks[1..], id);
      if rest == -1 then -1 else rest + 1
  }

  /** `filter((t) => t.id !== id)`. */
  function WithoutId(tasks: seq<Task>, id: int): (r: seq<Task>)
    ensures |r| <= |tasks|
    ensures forall t :: t in r <==> t in tasks && t.id != id
    decreases |tasks|
  {
    if tasks == [] then []
    else if tasks[0].id == id then WithoutId(tasks[1..], id)
    else [tasks[0]] + WithoutId(tasks[1..], id)
  }

  /** The slice's reducer. */
  function Reduce(s: TaskState, a: Action): TaskState {
    match a
    case FetchPending => s.(loading := true, error := None)
    case FetchFulfilled(data, total, page, perPage) =>
      s.(loading := false, tasks := data, total := total, page := page, perPage := perPage)
    case FetchRejected(m) => s.(loading := false, error := Some(ErrorText(m, FETCH_FAILED)))
    case CreatePending => s.(error := None)
    case CreateFulfilled(task) =>
      s.(tasks := if s.page == 1 then [task] + s.tasks else s.tasks, total := s.total + 1)
    case CreateRejected(m) => s.(error := Some(ErrorText(m, CREATE_FAILED)))
    case UpdatePending => s.(error := None)
    case UpdateFulfilled(task) =>
      var i := IndexOf(s.tasks, task.id);
      if i != -1 then s.(tasks := s.tasks[i := task]) else s
    case UpdateRejected(m) => s.(error := Some(ErrorText(m, UPDATE_FAILED)))
    case StatusPending => s.(error := None)
    case StatusFulfilled(id, status) =>
      var i := IndexOf(s.tasks, id);
      if i != -1 then s.(tasks := s.tasks[i := s.tasks[i].(status := status)]) else s
    case StatusRejected(m) => s.(error := Some(ErrorText(m, STATUS_FAILED)))
    case DeletePending => s.(error := None)
    case DeleteFulfilled(id) =>
      s.(tasks := WithoutId(s.tasks, id), total := if s.total - 1 > 0 then s.total - 1 else 0)
    case DeleteRejected(m) => s.(error := Some(ErrorText(m, DELETE_FAILED)))
    case ClearError => s.(error := None)
  }

  /** `findIndex` as the loop it runs. */
  method FindIndex(tasks: seq<Task>, id: int) returns (index: int)
    ensures index == IndexOf(tasks, id)
  {
    index := 0;
    while index < |tasks|
      invariant 0 <= index <= |tasks|
      invariant forall k :: 0 <= k < index ==> tasks[k].id != id
    {
      if tasks[index].id == id {
        return;
      }
      index := index + 1;
    }
    index := -1;
  }

  class Slice {
    var tasks: seq<Task>
    var total: int
    var page: int
    var perPage: int
    var loading: bool
    var error: Option<string>

    function State(): TaskState
      reads this
    {
      TaskState(tasks, total, page, perPage, loading, error)
    }

    constructor ()
      ensures State() == INITIAL
    {
      tasks, total, page, perPage := [], 0, 1, 20;
      loading, error := false, None;
    }

    method Dispatch(a: Action)
      modifies this
      ensures State() == Reduce(old(State()), a)
    {
      match a {
        case FetchPending =>
          loading := true;
          error := None;
        case FetchFulfilled(data, t, p, pp) =>
          loading := false;
          tasks := data;
          total := t;
          page := p;
          perPage := pp;
        case FetchRejected(m) =>
          loading := false;
          error := Some(ErrorText(m, FETCH_FAILED));
        case CreatePending =>
          error := None;
        case CreateFulfilled(task) =>
          if page == 1 {
            tasks := [task] + tasks;
          }
          total := total + 1;
        case CreateRejected(m) =>
          error := Some(ErrorText(m, CREATE_FAILED));
        case UpdatePending =>
          error := None;
        case UpdateFulfilled(task) =>
          var i := FindIndex(tasks, task.id);
          if i != -1 {
            tasks := tasks[i := task];
          }
        case UpdateRejected(m) =>
          error := Some(ErrorText(m, UPDATE_FAILED));
        case StatusPending =>
          error := None;
        case StatusFulfilled(id, status) =>
          var i := FindIndex(tasks, id);
          if i != -1 {
            tasks := tasks[i := tasks[i].(status := status)];
          }
        case StatusRejected(m) =>
          error := Some(ErrorText(m, STATUS_FAILED));
        case DeletePending =>
          error := None;
        case DeleteFulfilled(id) =>
          tasks := WithoutId(tasks, id);
          total := if total - 1 > 0 then total - 1 else 0;
        case DeleteRejected(m) =>
          error := Some(ErrorText(m, DELETE_FAILED));
        case ClearError =>
          error := None;
      }
    }
  }

  // ---------------------------------------------------------------------------
  // Properties of the reducer

  /** A fetched page replaces the list, the counter and the paging, and stops loading. */
  lemma FetchReplaces(s: TaskState, data: seq<Task>, total: int, page: int, perPage: int)
    ensures var t := Reduce(s, FetchFulfilled(data, total, page, perPage));
      t == TaskState(data, total, page, perPage, false, s.error)
  {
  }

  /** A created task is prepended only on page 1, while `total` always grows by one. */
  lemma CreatePrependsOnFirstPage(s: TaskState, task: Task)
    ensures var t := Reduce(s, CreateFulfilled(task));
      && t.total == s.total + 1
      && (s.page == 1 ==> t.tasks == [task] + s.tasks)
      && (s.page != 1 ==> t.tasks == s.tasks)
  {
  }

  /**
   * An updated task replaces the first task with its id; with no such task
   * the list is unchanged; the length never changes.
   */
  lemma UpdateReplacesFirstMatch(s: TaskState, task: Task)
    ensures var t := Reduce(s, UpdateFulfilled(task));
      && |t.tasks| == |s.tasks| && t.total == s.total
      && ((forall k :: 0 <= k < |s.tasks| ==> s.tasks[k].id != task.id) ==> t.tasks == s.tasks)
      && forall k :: 0 <= k < |s.tasks| ==>
           t.tasks[k] == (if k == IndexOf(s.tasks, task.id) then task else s.tasks[k])
  {
  }

  /** A status change touches only the status of the first task with that id. */
  lemma StatusChangesOnlyStatus(s: TaskState, id: int, status: TaskStatus)
    ensures var t := Reduce(s, StatusFulfilled(id, status));
      && |t.tasks| == |s.tasks| && t.total == s.total
      && forall k :: 0 <= k < |s.tasks| ==>
           t.tasks[k] == (if k == IndexOf(s.tasks, id) then s.tasks[k].(status := status) else s.tasks[k])
  {
  }

  /** Deleting an absent id keeps the list; deleting a present one shortens it. */
  lemma {:induction false} DeleteKeepsOthers(tasks: seq<Task>, id: int)
    ensures (forall k :: 0 <= k < |tasks| ==> tasks[k].id != id) ==> WithoutId(tasks, id) == tasks
    ensures forall k :: 0 <= k < |tasks| && tasks[k].id == id ==> |WithoutId(tasks, id)| < |tasks|
    decreases |tasks|
  {
    if tasks != [] {
      DeleteKeepsOthers(tasks[1..], id);
      assert forall k :: 1 <= k < |tasks| ==> tasks[k] == tasks[1..][k - 1];
    }
  }

  /** Filtering distributes over concatenation, so the kept tasks stay in their order. */
  lemma {:induction false} WithoutIdAppend(a: seq<Task>, b: seq<Task>, id: int)
    ensures WithoutId(a + b, id) == WithoutId(a, id) + WithoutId(b, id)
    decreases |a|
  {
    if a != [] {
      assert (a + b)[0] == a[0] && (a + b)[1..] == a[1..] + b;
      WithoutIdAppend(a[1..], b, id);
      if a[0].id != id {
        assert WithoutId(a + b, id) == [a[0]] + WithoutId(a[1..] + b, id);
        assert WithoutId(a, id) == [a[0]] + WithoutId(a[1..], id);
      }
    } else {
      assert a + b == b;
    }
  }

  /** One task is kept exactly when its id differs. */
  lemma WithoutIdSingle(task: Task, id: int)
    ensures WithoutId([task], id) == if task.id == id then [] else [task]
  {
    assert [task][1..] == [];
  }

  /** `deleteTask.fulfilled`: the filtered list, and `Math.max(0, total - 1)`. */
  lemma DeleteClampsTotal(s: TaskState, id: int)
    ensures var t := Reduce(s, DeleteFulfilled(id));
      && t.tasks == WithoutId(s.tasks, id)
      && t.total == (if s.total >= 1 then s.total - 1 else 0)
      && forall task :: task in t.tasks <==> task in s.tasks && task.id != id
  {
  }

  /** Every rejection sets the message (or its fixed default) and keeps list and counter. */
  lemma RejectionKeepsData(s: TaskState, m: Option<string>)
    ensures var t := Reduce(s, FetchRejected(m));
      t.tasks == s.tasks && t.total == s.total && !t.loading && t.error == Some(ErrorText(m, FETCH_FAILED))
    ensures var t := Reduce(s, CreateRejected(m));
      t.tasks == s.tasks && t.total == s.total && t.error == Some(ErrorText(m, CREATE_FAILED))
    ensures var t := Reduce(s, UpdateRejected(m));
      t.tasks == s.tasks && t.total == s.total && t.error == Some(ErrorText(m, UPDATE_FAILED))
    ensures var t := Reduce(s, StatusRejected(m));
      t.tasks == s.tasks && t.total == s.total && t.error == Some(ErrorText(m, STATUS_FAILED))
    ensures var t := Reduce(s, DeleteRejected(m));
      t.tasks == s.tasks && t.total == s.total && t.error == Some(ErrorText(m, DELETE_FAILED))
  {
  }

  /** Fetching starts loading; the other pending cases only clear the error. */
  lemma PendingClearsError(s: TaskState)
    ensures Reduce(s, FetchPending) == s.(loading := true, error := None)
    ensures Reduce(s, CreatePending) == s.(error := None)
    ensures Reduce(s, UpdatePending) == s.(error := None)
    ensures Reduce(s, StatusPending) == s.(error := None)
    ensures Reduce(s, DeletePending) == s.(error := None)
  {
  }
}
