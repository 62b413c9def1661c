/**
 * The task repository (internal/repository/task.go): the `tasks` table as a
 * map from id to row, the defaults applied on insert, the list queries with
 * their numbered placeholders, and the id/user_id scoping of every lookup
 * and write.
 */
module Repository {
  import opened Common
  import opened Numeric
  import opened TaskModel

  const DEFAULT_PAGE: int := 1
  const DEFAULT_PER_PAGE: int := 20

  /** `ErrTaskNotFound`, or any other error the database reports. */
  datatype RepoError = NotFound | DbError(message: string)

  /** A Go slice: nil, or a (possibly empty) sequence of elements. */
  datatype Slice<T> = Nil | Items(elems: seq<T>)

  /** An empty status becomes TODO and an empty priority MEDIUM; nothing else changes. */
  function WithDefaults(t: Task): (r: Task)
    ensures r.status != "" && r.priority != ""
    ensures t.status != "" ==> r.status == t.status
    ensures t.priority != "" ==> r.priority == t.priority
    ensures t.status == "" ==> r.status == STATUS_TODO
    ensures t.priority == "" ==> r.priority == PRIORITY_MEDIUM
    ensures r == t.(status := r.status, priority := r.priority)
  {
    t.(status := if t.status == "" then STATUS_TODO else t.status,
       priority := if t.priority == "" then PRIORITY_MEDIUM else t.priority)
  }

  /** Defaulting twice is defaulting once, so the service's and the repository's passes agree. */
  lemma WithDefaultsIdempotent(t: Task)
    ensures WithDefaults(WithDefaults(t)) == WithDefaults(t)
  {
  }

  // ---------------------------------------------------------------------------
  // The list queries

  datatype Column = UserIdColumn | StatusColumn | PriorityColumn

  /** `AND <column> = $<placeholder>` (the first one is the `WHERE`). */
  datatype Cond = Cond(column: Column, placeholder: nat)

  datatype Arg = IntArg(n: int) | TextArg(s: string)

  /**
   * A SELECT over `tasks`: its conditions, the placeholders of LIMIT and
   * OFFSET when it has them, and its argument list.
   */
  datatype Query = Query(conds: seq<Cond>, limitOffset: Option<(nat, nat)>, args: seq<Arg>)

  /** The value a row holds in a column, as an argument compares with it. */
  function ColumnValue(t: Task, c: Column): Arg {
    match c
    case UserIdColumn => IntArg(t.userId)
    case StatusColumn => TextArg(t.status)
    case PriorityColumn => TextArg(t.priority)
  }

  /** Whether a row satisfies every condition of a query, under its arguments. */
  predicate Selects(q: Query, t: Task) {
    forall i :: 0 <= i < |q.conds| ==>
      1 <= q.conds[i].placeholder <= |q.args|
      && ColumnValue(t, q.conds[i].column) == q.args[q.conds[i].placeholder - 1]
  }

  /** The rows a list request is about, stated without any query. */
  predicate FilterMatches(userId: int, f: TaskFilter, t: Task) {
    && t.userId == userId
    && (f.status == "" || t.status == f.status)
    && (f.priority == "" || t.priority == f.priority)
  }

  /** Placeholders `$1..$k`, numbered in order, with one argument each. */
  predicate Numbered(q: Query) {
    && |q.args| >= |q.conds|
    && forall i :: 0 <= i < |q.conds| ==> q.conds[i].placeholder == i + 1
  }

  /** The WHERE part both list queries build: user_id, then status, then priority. */
  function FilterQuery(userId: int, f: TaskFilter): Query {
    var base := Query([Cond(UserIdColumn, 1)], None, [IntArg(userId)]);
    var withStatus :=
      if f.status != "" then
        base.(conds := base.conds + [Cond(StatusColumn, |base.conds| + 1)], args := base.args + [TextArg(f.status)])
      else base;
    if f.priority != "" then
      withStatus.(conds := withStatus.conds + [Cond(PriorityColumn, |withStatus.conds| + 1)],
                  args := withStatus.args + [TextArg(f.priority)])
    else withStatus
  }

  /** The count query is numbered `$1..$k` with exactly k arguments. */
  lemma FilterQueryNumbered(userId: int, f: TaskFilter)
    ensures var q := FilterQuery(userId, f);
      Numbered(q) && |q.args| == |q.conds| && q.limitOffset.None?
      && 1 <= |q.conds| <= 3
  {
  }

  /** The count query selects exactly the rows the filter means. */
  lemma FilterQueryMeaning(userId: int, f: TaskFilter, t: Task)
    ensures Selects(FilterQuery(userId, f), t) <==> FilterMatches(userId, f, t)
  {
    var q := FilterQuery(userId, f);
    assert q.conds[0] == Cond(UserIdColumn, 1) && q.args[0] == IntArg(userId);
    if f.status != "" {
      assert q.conds[1] == Cond(StatusColumn, 2) && q.args[1] == TextArg(f.status);
    }
    if f.priority != "" {
      var k := |q.conds| - 1;
      assert q.conds[k] == Cond(PriorityColumn, k + 1) && q.args[k] == TextArg(f.priority);
    }
    if FilterMatches(userId, f, t) {
      assert Selects(q, t);
    }
  }

  /** The count query, built as `List` builds it: appending and bumping `argIndex`. */
  method BuildCountQuery(userId: int, f: TaskFilter) returns (q: Query)
    ensures q == FilterQuery(userId, f)
    ensures Numbered(q) && |q.args| == |q.conds|
    ensures forall t :: Selects(q, t) <==> FilterMatches(userId, f, t)
  {
    var conds := [Cond(UserIdColumn, 1)];
    var args := [IntArg(userId)];
    var argIndex := 2;
    if f.status != "" {
      conds := conds + [Cond(StatusColumn, argIndex)];
      args := args + [TextArg(f.status)];
      argIndex := argIndex + 1;
    }
    if f.priority != "" {
      conds := conds + [Cond(PriorityColumn, argIndex)];
      args := args + [TextArg(f.priority)];
      argIndex := argIndex + 1;
    }
    q := Query(conds, None, args);
    FilterQueryNumbered(userId, f);
    forall t: Task
      ensures Selects(q, t) <==> FilterMatches(userId, f, t)
    {
      FilterQueryMeaning(userId, f, t);
    }
  }

  /**
   * The page query: the same conditions and arguments as the count query,
   * then LIMIT `$k+1` and OFFSET `$k+2` bound to `perPage` and `offset`.
   */
  method BuildPageQuery(userId: int, f: TaskFilter, offset: int) returns (q: Query)
    ensures var w := FilterQuery(userId, f);
      && q.conds == w.conds
      && q.args == w.args + [IntArg(f.perPage), IntArg(offset)]
      && q.limitOffset == Some((|w.conds| + 1, |w.conds| + 2))
    ensures Numbered(q) && |q.args| == |q.conds| + 2
    ensures q.args[q.limitOffset.value.0 - 1] == IntArg(f.perPage)
    ensures q.args[q.limitOffset.value.1 - 1] == IntArg(offset)
  {
    var conds := [Cond(UserIdColumn, 1)];
    var args := [IntArg(userId)];
    var argIndex: nat := 2;
    if f.status != "" {
      conds := conds + [Cond(StatusColumn, argIndex)];
      args := args + [TextArg(f.status)];
      argIndex := argIndex + 1;
    }
    if f.priority != "" {
      conds := conds + [Cond(PriorityColumn, argIndex)];
      args := args + [TextArg(f.priority)];
      argIndex := argIndex + 1;
    }
    q := Query(conds, Some((argIndex, argIndex + 1)), args + [IntArg(f.perPage), IntArg(offset)]);
    FilterQueryNumbered(userId, f);
  }

  /** Page and per-page below 1 fall back to 1 and 20. */
  function Normalized(f: TaskFilter): (g: TaskFilter)
    ensures g.page >= 1 && g.perPage >= 1
    ensures f.page > 0 ==> g.page == f.page
    ensures f.perPage > 0 ==> g.perPage == f.perPage
    ensures f.page <= 0 ==> g.page == DEFAULT_PAGE
    ensures f.perPage <= 0 ==> g.perPage == DEFAULT_PER_PAGE
    ensures g.status == f.status && g.priority == f.priority
  {
    f.(page := if f.page <= 0 then DEFAULT_PAGE else f.page,
       perPage := if f.perPage <= 0 then DEFAULT_PER_PAGE else f.perPage)
  }

  /** `(Page-1)*PerPage` in Go's 64-bit `int`. */
  function Offset(page: int, perPage: int): (r: int)
    ensures InInt64(r)
  {
    WrapInt64((page - 1) * perPage)
  }

  /** After normalisation the offset is non-negative, as long as the product fits in 64 bits. */
  lemma OffsetNonNegative(f: TaskFilter)
    requires (Normalized(f).page - 1) * Normalized(f).perPage <= INT64_MAX
    ensures var g := Normalized(f);
      Offset(g.page, g.perPage) == (g.page - 1) * g.perPage >= 0
  {
    var g := Normalized(f);
    assert (g.page - 1) * g.perPage >= 0;
  }

  /** A huge page number wraps the offset negative. */
  lemma OffsetWraps()
    ensures Offset(0x4000_0000_0000_0000, 4) == -4
  {
  }

  function MatchingIds(rows: map<int, Task>, userId: int, f: TaskFilter): set<int> {
    set id | id in rows && FilterMatches(userId, f, rows[id])
  }

  /** The result of `List`: the page's rows and the total count. */
  datatype ListPage = ListPage(tasks: Slice<Task>, total: int)

  class TaskRepository {
    /** The `tasks` table by primary key; `nextId` is the serial sequence. */
    var rows: map<int, Task>
    var nextId: int

    ghost predicate Valid()
      reads this
    {
      && nextId >= 1
      && forall id :: id in rows ==> rows[id].id == id && 1 <= id < nextId
    }

    constructor ()
      ensures Valid() && rows == map[] && nextId == 1
    {
      rows := map[];
      nextId := 1;
    }

    /** Whether a row with this id belongs to this user. */
    predicate Owns(id: int, userId: int)
      reads this
    {
      id in rows && rows[id].userId == userId
    }

    /**
     * INSERT with defaults; the database assigns the id and both
     * timestamps. `fault` is the error the database reports, if any.
     */
    method Create(task: Task, now: int, fault: Option<string>) returns (r: Result<Task, RepoError>)
      requires Valid()
      modifies this
      ensures Valid()
      ensures fault.Some? ==> r == Err(DbError(fault.value)) && rows == old(rows) && nextId == old(nextId)
      ensures fault.None? ==>
        && r == Ok(WithDefaults(task).(id := old(nextId), createdAt := now, updatedAt := now))
        && r.value.id !in old(rows)
        && rows == old(rows)[r.value.id := r.value]
    {
      var t := task;
      if t.status == "" {
        t := t.(status := STATUS_TODO);
      }
      if t.priority == "" {
        t := t.(priority := PRIORITY_MEDIUM);
      }
      if fault.Some? {
        return Err(DbError(fault.value));
      }
      t := t.(id := nextId, createdAt := now, updatedAt := now);
      rows := rows[nextId := t];
      nextId := nextId + 1;
      r := Ok(t);
    }

    /** SELECT by id AND user_id: another user's task is as absent as a missing one. */
    method GetByID(id: int, userId: int, fault: Option<string>) returns (r: Result<Task, RepoError>)
      ensures fault.Some? ==> r == Err(DbError(fault.value))
      ensures fault.None? ==> (r.Ok? <==> Owns(id, userId))
      ensures fault.None? && r.Ok? ==> r.value == rows[id]
      ensures fault.None? && r.Err? ==> r.error == NotFound
    {
      if fault.Some? {
        return Err(DbError(fault.value));
      }
      if id in rows && rows[id].userId == userId {
        r := Ok(rows[id]);
      } else {
        r := Err(NotFound);
      }
    }

    /**
     * The two queries of `List`: the count over the filter, then the page.
     * `fetched` (or its error) stands for the rows the database returns for
     * the page query; they are appended one by one as the code does.
     */
    method List(userId: int, filter: TaskFilter, countFault: Option<string>, fetched: Result<seq<Task>, string>)
      returns (r: Result<ListPage, RepoError>, pageQuery: Option<Query>)
      ensures countFault.Some? ==> r == Err(DbError(countFault.value)) && pageQuery.None?
      ensures countFault.None? ==> pageQuery.Some?
      ensures countFault.None? ==>
        var g := Normalized(filter);
        var w := FilterQuery(userId, g);
        pageQuery == Some(Query(w.conds, Some((|w.conds| + 1, |w.conds| + 2)),
                                w.args + [IntArg(g.perPage), IntArg(Offset(g.page, g.perPage))]))
      ensures countFault.None? && fetched.Err? ==> r == Err(DbError(fetched.error))
      ensures countFault.None? && fetched.Ok? ==>
        r == Ok(ListPage(Items(fetched.value), |MatchingIds(rows, userId, filter)|))
    {
      var countQuery := BuildCountQuery(userId, filter);
      if countFault.Some? {
        return Err(DbError(countFault.value)), None;
      }
      var matching := set id | id in rows && Selects(countQuery, rows[id]);
      assert matching == MatchingIds(rows, userId, filter);
      var total := |matching|;

      var f := filter;
      if f.page <= 0 {
        f := f.(page := DEFAULT_PAGE);
      }
      if f.perPage <= 0 {
        f := f.(perPage := DEFAULT_PER_PAGE);
      }
      var offset := WrapInt64((f.page - 1) * f.perPage);
      var q := BuildPageQuery(userId, f, offset);
      pageQuery := Some(q);
      if fetched.Err? {
        return Err(DbError(fetched.error)), pageQuery;
      }

      var tasks: Slice<Task> := Nil;
      for i := 0 to |fetched.value|
        invariant tasks == if i == 0 then Nil else Items(fetched.value[..i])
      {
        tasks := if tasks.Nil? then Items([fetched.value[i]]) else Items(tasks.elems + [fetched.value[i]]);
      }
      assert fetched.value[..|fetched.value|] == fetched.value;
      if tasks.Nil? {
        tasks := Items([]);
      }
      r := Ok(ListPage(tasks, total));
    }

    /** UPDATE of the editable columns WHERE id AND user_id; the row keeps its id, owner and creation time. */
    method Update(task: Task, now: int, fault: Option<string>) returns (r: Result<Task, RepoError>)
      requires Valid()
      modifies this
      ensures Valid() && nextId == old(nextId)
      ensures fault.Some? ==> r == Err(DbError(fault.value)) && rows == old(rows)
      ensures fault.None? && !old(Owns(task.id, task.userId)) ==> r == Err(NotFound) && rows == old(rows)
      ensures fault.None? && old(Owns(task.id, task.userId)) ==>
        && r == Ok(task.(updatedAt := now))
        && rows == old(rows)[task.id := old(rows)[task.id].(title := task.title, description := task.description,
             status := task.status, priority := task.priority, dueDate := task.dueDate, updatedAt := now)]
    {
      if fault.Some? {
        return Err(DbError(fault.value));
      }
      if !(task.id in rows && rows[task.id].userId == task.userId) {
        return Err(NotFound);
      }
      var row := rows[task.id];
      rows := rows[task.id := row.(title := task.title, description := task.description,
        status := task.status, priority := task.priority, dueDate := task.dueDate, updatedAt := now)];
      r := Ok(task.(updatedAt := now));
    }

    /** UPDATE of the status WHERE id AND user_id; no affected row is not-found. */
    method UpdateStatus(id: int, userId: int, status: string, now: int, fault: Option<string>) returns (r: Option<RepoError>)
      requires Valid()
      modifies this
      ensures Valid() && nextId == old(nextId)
      ensures fault.Some? ==> r == Some(DbError(fault.value)) && rows == old(rows)
      ensures fault.None? && !old(Owns(id, userId)) ==> r == Some(NotFound) && rows == old(rows)
      ensures fault.None? && old(Owns(id, userId)) ==>
        r.None? && rows == old(rows)[id := old(rows)[id].(status := status, updatedAt := now)]
    {
      if fault.Some? {
        return Some(DbError(fault.value));
      }
      if !(id in rows && rows[id].userId == userId) {
        return Some(NotFound);
      }
      rows := rows[id := rows[id].(status := status, updatedAt := now)];
      r := None;
    }

    /** DELETE WHERE id AND user_id; no affected row is not-found. */
    method Delete(id: int, userId: int, fault: Option<string>) returns (r: Option<RepoError>)
      requires Valid()
      modifies this
      ensures Valid() && nextId == old(nextId)
      ensures fault.Some? ==> r == Some(DbError(fault.value)) && rows == old(rows)
      ensures fault.None? && !old(Owns(id, userId)) ==> r == Some(NotFound) && rows == old(rows)
      ensures fault.None? && old(Owns(id, userId)) ==> r.None? && rows == old(rows) - {id}
    {
      if fault.Some? {
        return Some(DbError(fault.value));
      }
      if !(id in rows && rows[id].userId == userId) {
        return Some(NotFound);
      }
      rows := rows - {id};
      r := None;
    }
  }
}
