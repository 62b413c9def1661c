/**
 * The API's task records and request bodies (internal/model/task.go): the
 * status and priority enumerations and the binding rules gin checks on
 * each request struct.
 */
module TaskModel {
  import opened Common

  const STATUS_TODO: string := "TODO"
  const STATUS_IN_PROGRESS: string := "IN_PROGRESS"
  const STATUS_DONE: string := "DONE"
  const PRIORITY_LOW: string := "LOW"
  const PRIORITY_MEDIUM: string := "MEDIUM"
  const PRIORITY_HIGH: string := "HIGH"
  const TITLE_MAX: nat := 200

  /** The values of `TaskStatus` and `TaskPriority` the code names. */
  datatype Status = Todo | InProgress | Done
  datatype Priority = Low | Medium | High

  function StatusName(s: Status): string {
    match s
    case Todo => STATUS_TODO
    case InProgress => STATUS_IN_PROGRESS
    case Done => STATUS_DONE
  }

  function PriorityName(p: Priority): string {
    match p
    case Low => PRIORITY_LOW
    case Medium => PRIORITY_MEDIUM
    case High => PRIORITY_HIGH
  }

  /** The enumeration member a string names, if any: the inverse of `StatusName`. */
  function ParseStatus(n: string): (r: Option<Status>)
    ensures r.Some? ==> StatusName(r.value) == n
    ensures forall s: Status :: StatusName(s) == n ==> r == Some(s)
  {
    if n == STATUS_TODO then Some(Todo)
    else if n == STATUS_IN_PROGRESS then Some(InProgress)
    else if n == STATUS_DONE then Some(Done)
    else None
  }

  function ParsePriority(n: string): (r: Option<Priority>)
    ensures r.Some? ==> PriorityName(r.value) == n
    ensures forall p: Priority :: PriorityName(p) == n ==> r == Some(p)
  {
    if n == PRIORITY_LOW then Some(Low)
    else if n == PRIORITY_MEDIUM then Some(Medium)
    else if n == PRIORITY_HIGH then Some(High)
    else None
  }

  /** A stored task. Times are opaque instants. */
  datatype Task = Task(
    id: int,
    userId: int,
    title: string,
    description: string,
    status: string,
    priority: string,
    dueDate: Option<int>,
    createdAt: int,
    updatedAt: int)

  datatype CreateTaskRequest = CreateTaskRequest(
    title: string, description: string, status: string, priority: string, dueDate: Option<int>)

  datatype UpdateTaskRequest = UpdateTaskRequest(
    title: string, description: string, status: string, priority: string, dueDate: Option<int>)

  datatype UpdateStatusRequest = UpdateStatusRequest(status: string)

  /** `TaskFilter`: an empty status or priority means "any". */
  datatype TaskFilter = TaskFilter(status: string, priority: string, page: int, perPage: int)

  datatype ListMeta = ListMeta(total: int, page: int, perPage: int)

  // ---------------------------------------------------------------------------
  // Binding tags, as the validator reads them on a string field

  /** `required`, `max=n` (counted in characters) and `oneof=...`. */
  datatype Rule = Required | MaxChars(n: nat) | OneOf(options: seq<string>)

  /** A field's `binding` tag: whether it starts with `omitempty`, then its rules. */
  datatype Tag = Tag(omitEmpty: bool, rules: seq<Rule>)

  function Holds(rule: Rule, v: string): bool {
    match rule
    case Required => v != ""
    case MaxChars(n) => |v| <= n
    case OneOf(options) => v in options
  }

  function AllHold(rules: seq<Rule>, v: string): (ok: bool)
    ensures ok <==> forall i :: 0 <= i < |rules| ==> Holds(rules[i], v)
    decreases |rules|
  {
    if rules == [] then true else Holds(rules[0], v) && AllHold(rules[1..], v)
  }

  /** A tag passes when the field is empty under `omitempty`, or every rule holds. */
  function Check(tag: Tag, v: string): (ok: bool)
    ensures tag.omitEmpty && v == "" ==> ok
    ensures !(tag.omitEmpty && v == "") ==> (ok <==> forall i :: 0 <= i < |tag.rules| ==> Holds(tag.rules[i], v))
  {
    (tag.omitEmpty && v == "") || AllHold(tag.rules, v)
  }

  const STATUS_OPTIONS: seq<string> := [STATUS_TODO, STATUS_IN_PROGRESS, STATUS_DONE]
  const PRIORITY_OPTIONS: seq<string> := [PRIORITY_LOW, PRIORITY_MEDIUM, PRIORITY_HIGH]

  const CREATE_TITLE_TAG: Tag := Tag(false, [Required, MaxChars(TITLE_MAX)])
  const UPDATE_TITLE_TAG: Tag := Tag(false, [MaxChars(TITLE_MAX)])
  const OPTIONAL_STATUS_TAG: Tag := Tag(true, [OneOf(STATUS_OPTIONS)])
  const OPTIONAL_PRIORITY_TAG: Tag := Tag(true, [OneOf(PRIORITY_OPTIONS)])
  const REQUIRED_STATUS_TAG: Tag := Tag(false, [Required, OneOf(STATUS_OPTIONS)])

  /** The `oneof` lists are exactly the enumerations. */
  lemma OneOfListsAreTheEnums(n: string)
    ensures n in STATUS_OPTIONS <==> ParseStatus(n).Some?
    ensures n in PRIORITY_OPTIONS <==> ParsePriority(n).Some?
  {
  }

  /** What each tag used on the request structs accepts. */
  lemma {:induction false} TagMeanings(v: string)
    ensures Check(CREATE_TITLE_TAG, v) <==> v != "" && |v| <= TITLE_MAX
    ensures Check(UPDATE_TITLE_TAG, v) <==> |v| <= TITLE_MAX
    ensures Check(OPTIONAL_STATUS_TAG, v) <==> v == "" || ParseStatus(v).Some?
    ensures Check(OPTIONAL_PRIORITY_TAG, v) <==> v == "" || ParsePriority(v).Some?
    ensures Check(REQUIRED_STATUS_TAG, v) <==> ParseStatus(v).Some?
  {
    OneOfListsAreTheEnums(v);
    assert Holds(CREATE_TITLE_TAG.rules[0], v) <==> v != "";
    assert Holds(CREATE_TITLE_TAG.rules[1], v) <==> |v| <= TITLE_MAX;
    assert Holds(REQUIRED_STATUS_TAG.rules[0], v) <==> v != "";
    assert Holds(REQUIRED_STATUS_TAG.rules[1], v) <==> v in STATUS_OPTIONS;
    assert Holds(OPTIONAL_STATUS_TAG.rules[0], v) <==> v in STATUS_OPTIONS;
    assert Holds(OPTIONAL_PRIORITY_TAG.rules[0], v) <==> v in PRIORITY_OPTIONS;
    assert Holds(UPDATE_TITLE_TAG.rules[0], v) <==> |v| <= TITLE_MAX;
  }

  /** `CreateTaskRequest` passes binding. */
  function ValidCreate(req: CreateTaskRequest): (ok: bool)
    ensures ok <==>
      && req.title != "" && |req.title| <= TITLE_MAX
      && (req.status == "" || ParseStatus(req.status).Some?)
      && (req.priority == "" || ParsePriority(req.priority).Some?)
  {
    TagMeanings(req.title);
    TagMeanings(req.status);
    TagMeanings(req.priority);
    Check(CREATE_TITLE_TAG, req.title)
    && Check(OPTIONAL_STATUS_TAG, req.status)
    && Check(OPTIONAL_PRIORITY_TAG, req.priority)
  }

  /** `UpdateTaskRequest` passes binding: every field may be empty. */
  function ValidUpdate(req: UpdateTaskRequest): (ok: bool)
    ensures ok <==>
      && |req.title| <= TITLE_MAX
      && (req.status == "" || ParseStatus(req.status).Some?)
      && (req.priority == "" || ParsePriority(req.priority).Some?)
  {
    TagMeanings(req.title);
    TagMeanings(req.status);
    TagMeanings(req.priority);
    Check(UPDATE_TITLE_TAG, req.title)
    && Check(OPTIONAL_STATUS_TAG, req.status)
    && Check(OPTIONAL_PRIORITY_TAG, req.priority)
  }

  /** `UpdateStatusRequest` passes binding only with a member of the enumeration. */
  function ValidStatusUpdate(req: UpdateStatusRequest): (ok: bool)
    ensures ok <==> ParseStatus(req.status).Some?
  {
    TagMeanings(req.status);
    Check(REQUIRED_STATUS_TAG, req.status)
  }

  /** An update request may leave every field empty; a status update may not. */
  lemma EmptyUpdateBinds()
    ensures ValidUpdate(UpdateTaskRequest("", "", "", "", None))
    ensures ValidStatusUpdate(UpdateStatusRequest("")) == false
  {
  }
}
