/**
 * The task form (components/tasks/TaskForm.tsx): how a task prefills the
 * form fields and how the fields become the body that is submitted.
 */
module TaskForm {
  import opened Common
  import opened TaskTypes

  const SAVE_FAILED: string := "Failed to save task"
  const MIDNIGHT_UTC: string := "T00:00:00Z"

  /** The form's editable fields, all held as text or enum values. */
  datatype Fields = Fields(
    title: string,
    description: string,
    status: TaskStatus,
    priority: TaskPriority,
    dueDate: string)

  const EMPTY_FIELDS: Fields := Fields("", "", Todo, Medium, "")

  /** `s.split('T')[0]`: the text before the first 'T', or all of `s`. */
  function BeforeFirstT(s: string): (r: string)
    ensures r <= s
    ensures 'T' !in r
    ensures |r| < |s| ==> s[|r|] == 'T'
    decreases |s|
  {
    if s == [] then []
    else if s[0] == 'T' then []
    else [s[0]] + BeforeFirstT(s[1..])
  }

  /** The due-date field a stored `due_date` prefills: its date part, '' when absent or empty. */
  function PrefillDate(dueDate: Option<string>): (r: string)
    ensures dueDate.None? ==> r == ""
    ensures dueDate.Some? ==> r <= dueDate.value && 'T' !in r
    ensures dueDate.Some? ==> r == BeforeFirstT(dueDate.value)
  {
    if dueDate.Some? && dueDate.value != "" then BeforeFirstT(dueDate.value) else ""
  }

  /** The fields the prefill effect sets for a task being edited, or for a new one. */
  function Prefilled(task: Option<Task>): (f: Fields)
    ensures task.None? ==> f == EMPTY_FIELDS
    ensures task.Some? ==>
      f.title == task.value.title && f.status == task.value.status
      && f.priority == task.value.priority && 'T' !in f.dueDate
    ensures task.Some? && task.value.description.Some? ==> f.description == task.value.description.value
    ensures task.Some? && task.value.description.None? ==> f.description == ""
    ensures task.Some? ==> f.dueDate == PrefillDate(task.value.dueDate)
  {
    match task
    case None => EMPTY_FIELDS
    case Some(t) =>
      Fields(t.title, if t.description.Some? then t.description.value else "",
             t.status, t.priority, PrefillDate(t.dueDate))
  }

  /** The body `handleSubmit` passes to `onSubmit`. */
  function Payload(f: Fields): (p: CreateTaskData)
    ensures p.title == f.title && p.status == Some(f.status) && p.priority == Some(f.priority)
    ensures p.description.None? <==> f.description == ""
    ensures p.description.Some? ==> p.description.value == f.description
    ensures p.dueDate.None? <==> f.dueDate == ""
    ensures f.dueDate != "" ==> p.dueDate == Some(f.dueDate + MIDNIGHT_UTC)
  {
    CreateTaskData(
      f.title,
      if f.description == "" then None else Some(f.description),
      Some(f.status),
      Some(f.priority),
      if f.dueDate == "" then None else Some(f.dueDate + MIDNIGHT_UTC))
  }

  /** Appending a suffix that starts with 'T' to a string free of 'T' splits back to it. */
  lemma {:induction false} BeforeFirstTAppend(d: string, suffix: string)
    requires 'T' !in d && suffix != [] && suffix[0] == 'T'
    ensures BeforeFirstT(d + suffix) == d
    decreases |d|
  {
    if d != [] {
      assert (d + suffix)[1..] == d[1..] + suffix;
      BeforeFirstTAppend(d[1..], suffix);
    }
  }

  /**
   * A date the user typed (no 'T') survives a save and a reload: the
   * submitted `due_date` prefills the field with the same text.
   */
  lemma DateRoundTrip(f: Fields)
    requires 'T' !in f.dueDate
    ensures PrefillDate(Payload(f).dueDate) == f.dueDate
  {
    if f.dueDate != "" {
      BeforeFirstTAppend(f.dueDate, MIDNIGHT_UTC);
    }
  }

  /** What `onSubmit` did: resolved, threw an `Error`, or threw some other value. */
  datatype Thrown = ErrorObject(message: string) | OtherValue

  function SubmitError(outcome: Option<Thrown>): (r: Option<string>)
    ensures outcome.None? <==> r.None?
    ensures outcome.Some? && outcome.value.ErrorObject? ==> r == Some(outcome.value.message)
    ensures outcome == Some(OtherValue) ==> r == Some(SAVE_FAILED)
  {
    match outcome
    case None => None
    case Some(ErrorObject(m)) => Some(m)
    case Some(OtherValue) => Some(SAVE_FAILED)
  }

  class Form {
    var fields: Fields
    var loading: bool
    var error: Option<string>

    constructor ()
      ensures fields == EMPTY_FIELDS && !loading && error.None?
    {
      fields := EMPTY_FIELDS;
      loading := false;
      error := None;
    }

    /** The effect that runs whenever the `task` prop changes. */
    method Prefill(task: Option<Task>)
      modifies this
      ensures fields == Prefilled(task)
      ensures loading == old(loading) && error == old(error)
    {
      match task {
        case None =>
          fields := EMPTY_FIELDS;
        case Some(t) =>
          var description := if t.description.Some? then t.description.value else "";
          var dueDate := "";
          if t.dueDate.Some? && t.dueDate.value != "" {
            dueDate := BeforeFirstT(t.dueDate.value);
          }
          fields := Fields(t.title, description, t.status, t.priority, dueDate);
      }
    }

    /**
     * `handleSubmit`, given how `onSubmit` settles: it returns the body it
     * sent; afterwards `loading` is false whatever happened.
     */
    method HandleSubmit(outcome: Option<Thrown>) returns (sent: CreateTaskData)
      modifies this
      ensures sent == Payload(old(fields))
      ensures fields == old(fields)
      ensures !loading
      ensures error == SubmitError(outcome)
    {
      loading := true;
      error := None;
      sent := Payload(fields);
      match outcome {
        case None =>
        case Some(ErrorObject(m)) =>
          error := Some(m);
        case Some(OtherValue) =>
          error := Some(SAVE_FAILED);
      }
      loading := false;
    }
  }
}
