/**
 * The task editor modal: its form state (`formData`, `error`), the reset that
 * runs when it is opened or its task changes, the single-field updates, and
 * the submit handler with its three pure derivations (the request body, the
 * create-or-update choice, the error message).
 */
module Editor {
  import opened Wrappers
  import opened Text
  import opened Tasks
  import opened Api

  /** The editor's task shape: like a listed task, but the id is optional. */
  datatype FormTask = FormTask(
    id: Option<int>,
    title: string,
    description: string,
    dueDate: string,
    priority: Priority,
    status: Status,
    starred: bool)

  /** The two callbacks the editor receives from its parent. */
  datatype Callback = OnSave | OnClose

  /** The draft a new task starts from. */
  const DefaultForm := FormTask(None, "", "", "", Medium, Pending, false)

  const SaveFailedMessage := "Failed to save task."

  const MessageSeparator := ", "

  /** The form a reset installs: the given task as it is, or the default draft. */
  function ResetForm(task: Option<FormTask>): (f: FormTask)
    ensures task.Some? ==> f == task.value
    ensures task.None? ==> f.id == None && f.title == "" && f.description == "" && f.dueDate == ""
    ensures task.None? ==> f.priority == Medium && f.status == Pending && !f.starred
  {
    if task.Some? then task.value else DefaultForm
  }

  /** `dataToSend`: the form's fields, with an empty due date sent as `null`. */
  function DataToSend(f: FormTask): (p: Payload)
    ensures p.dueDate.None? <==> f.dueDate == ""
    ensures p.dueDate.Some? ==> p.dueDate.value == f.dueDate
    ensures p.id == f.id && p.title == f.title && p.description == f.description
    ensures p.priority == f.priority && p.status == f.status && p.starred == f.starred
  {
    Payload(f.id, f.title, f.description,
            if f.dueDate == "" then None else Some(f.dueDate),
            f.priority, f.status, f.starred)
  }

  /** The form a request body comes from: a `null` due date is the empty field. */
  function FormOf(p: Payload): FormTask
  {
    FormTask(p.id, p.title, p.description,
             if p.dueDate.Some? then p.dueDate.value else "",
             p.priority, p.status, p.starred)
  }

  /** The request body determines the form it was built from ... */
  lemma FormOfDataToSend(f: FormTask)
    ensures FormOf(DataToSend(f)) == f
  {
  }

  /** ... and every body that does not carry an empty date string is the body of its form. */
  lemma DataToSendFormOf(p: Payload)
    ensures DataToSend(FormOf(p)) == p <==> p.dueDate != Some("")
  {
  }

  /** `task?.id` is truthy: the editor was given a task whose id is present and not 0. */
  predicate HasTruthyId(task: Option<FormTask>)
  {
    task.Some? && task.value.id.Some? && task.value.id.value != 0
  }

  /**
   * PUT /tasks/{id}/ when the task prop has a truthy id, POST /tasks/
   * otherwise. The choice reads the prop `task`, not `formData`.
   */
  function SaveRequest(task: Option<FormTask>, body: Payload): (r: Request)
    ensures r.UpdateTask? <==> HasTruthyId(task)
    ensures r.UpdateTask? ==> r.id == task.value.id.value && r.body == body
    ensures !r.UpdateTask? ==> r == CreateTask(body)
  {
    if HasTruthyId(task) then UpdateTask(task.value.id.value, body)
    else CreateTask(body)
  }

  /** A task with id 0 is saved by a create, as is a missing task or a task without id. */
  lemma FalsyIdCreates(task: Option<FormTask>, body: Payload)
    requires task.None? || task.value.id.None? || task.value.id == Some(0)
    ensures SaveRequest(task, body) == CreateTask(body)
  {
  }

  /** `m` is the text of `v` or one of its texts. */
  predicate Carries(v: ErrorValue, m: string)
  {
    match v
    case Message(text) => m == text
    case Messages(texts) => m in texts
  }

  /** `.flat()` of the error values: lists are spliced in, single messages kept. */
  function Flatten(values: seq<ErrorValue>): seq<string>
  {
    if values == [] then []
    else
      (match values[0]
       case Message(text) => [text]
       case Messages(texts) => texts)
      + Flatten(values[1..])
  }

  /** The flattened list holds exactly the messages the values carry. */
  lemma {:induction false} FlattenMembers(values: seq<ErrorValue>, m: string)
    ensures m in Flatten(values) <==> exists i :: 0 <= i < |values| && Carries(values[i], m)
  {
    if values != [] {
      FlattenMembers(values[1..], m);
      if exists i :: 0 <= i < |values[1..]| && Carries(values[1..][i], m) {
        var i :| 0 <= i < |values[1..]| && Carries(values[1..][i], m);
        assert Carries(values[i + 1], m);
      }
      if exists i :: 0 <= i < |values| && Carries(values[i], m) {
        var i :| 0 <= i < |values| && Carries(values[i], m);
        if i > 0 {
          assert Carries(values[1..][i - 1], m);
        }
      }
    }
  }

  /**
   * The inline error after a failed save: the joined messages, or the
   * generic message when the response has no data or the join is empty.
   */
  function ErrorMessage(data: Option<seq<ErrorValue>>): (m: string)
    ensures m != ""
    ensures data.None? ==> m == SaveFailedMessage
  {
    if data.None? then SaveFailedMessage
    else
      var joined := Join(Flatten(data.value), MessageSeparator);
      if joined == "" then SaveFailedMessage else joined
  }

  /**
   * With data, the message is the messages joined by ", ", unless there is
   * no message or just one empty one, when it is the generic message; every
   * message the data carries appears in what is shown.
   */
  lemma ErrorMessageFromData(values: seq<ErrorValue>)
    ensures Flatten(values) == [] || Flatten(values) == [""] ==> ErrorMessage(Some(values)) == SaveFailedMessage
    ensures Flatten(values) != [] && Flatten(values) != [""] ==>
      ErrorMessage(Some(values)) == Join(Flatten(values), MessageSeparator)
    ensures forall i, m :: 0 <= i < |values| && Carries(values[i], m) ==>
      Includes(ErrorMessage(Some(values)), m)
  {
    var parts := Flatten(values);
    JoinEmptyIff(parts, MessageSeparator);
    forall i, m | 0 <= i < |values| && Carries(values[i], m)
      ensures Includes(ErrorMessage(Some(values)), m)
    {
      FlattenMembers(values, m);
      var k :| 0 <= k < |parts| && parts[k] == m;
      var shown := ErrorMessage(Some(values));
      if parts == [""] {
        assert m == "";
        IncludesEmpty(shown);
      } else {
        JoinContainsPart(parts, MessageSeparator, k);
        IncludesIsSubstring(shown, m);
      }
    }
  }

  /** The editor component's state: its two props that drive the reset, and its own state. */
  class TaskModal {
    var isOpen: bool
    var task: Option<FormTask>
    var formData: FormTask
    var error: string

    /** Mounting: the initial state, then the reset effect's first run. */
    constructor (isOpen: bool, task: Option<FormTask>)
      ensures this.isOpen == isOpen && this.task == task
      ensures formData == ResetForm(task) && error == ""
    {
      this.isOpen := isOpen;
      this.task := task;
      formData := DefaultForm;
      error := "";
      new;
      Reset();
    }

    /** The reset effect: the form for the current task, and no error. */
    method Reset()
      modifies this`formData, this`error
      ensures formData == ResetForm(task) && error == ""
    {
      if task.Some? {
        formData := task.value;
      } else {
        formData := DefaultForm;
      }
      error := "";
    }

    /** New props from the parent; the reset runs when `task` or `isOpen` changed. */
    method SetProps(isOpen: bool, task: Option<FormTask>)
      modifies this
      ensures this.isOpen == isOpen && this.task == task
      ensures isOpen != old(this.isOpen) || task != old(this.task) ==>
        formData == ResetForm(task) && error == ""
      ensures isOpen == old(this.isOpen) && task == old(this.task) ==>
        formData == old(formData) && error == old(error)
    {
      var changed := isOpen != this.isOpen || task != this.task;
      this.isOpen := isOpen;
      this.task := task;
      if changed {
        Reset();
      }
    }

    method SetTitle(title: string)
      modifies this`formData
      ensures formData == old(formData).(title := title)
    {
      formData := formData.(title := title);
    }

    method SetDescription(description: string)
      modifies this`formData
      ensures formData == old(formData).(description := description)
    {
      formData := formData.(description := description);
    }

    method SetDueDate(dueDate: string)
      modifies this`formData
      ensures formData == old(formData).(dueDate := dueDate)
    {
      formData := formData.(dueDate := dueDate);
    }

    method SetPriority(priority: Priority)
      modifies this`formData
      ensures formData == old(formData).(priority := priority)
    {
      formData := formData.(priority := priority);
    }

    method SetStatus(status: Status)
      modifies this`formData
      ensures formData == old(formData).(status := status)
    {
      formData := formData.(status := status);
    }

    method SetStarred(starred: bool)
      modifies this`formData
      ensures formData == old(formData).(starred := starred)
    {
      formData := formData.(starred := starred);
    }

    /**
     * `handleSubmit`: sends the create or update, then on success calls
     * `onSave` and `onClose` (returned in call order); on failure calls
     * neither and shows the derived error. The form itself is kept.
     */
    method HandleSubmit(api: Client, outcome: Outcome<()>) returns (calls: seq<Callback>)
      modifies this`error, api
      ensures api.sent == old(api.sent) + [SaveRequest(task, DataToSend(formData))]
      ensures outcome.Success? ==> calls == [OnSave, OnClose] && error == old(error)
      ensures outcome.Failure? ==> calls == [] && error == ErrorMessage(outcome.data)
    {
      api.Send(SaveRequest(task, DataToSend(formData)));
      if outcome.Success? {
        calls := [OnSave, OnClose];
      } else {
        calls := [];
        error := ErrorMessage(outcome.data);
      }
    }
  }
}
