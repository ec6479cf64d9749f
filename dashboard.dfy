/**
 * The dashboard page's state and handlers: loading the task list, deleting
 * behind a confirmation, opening the editor for create or edit, the filter
 * controls and logout.
 */
module Dashboard {
  import opened Wrappers
  import opened Api
  import opened Browser
  import opened DashboardFilter
  import Editor

  const AccessTokenKey := "access_token"
  const RefreshTokenKey := "refresh_token"

  /** The task a listed task becomes when handed to the editor: its id is present. */
  function AsFormTask(t: Task): (f: Editor.FormTask)
    ensures f.id == Some(t.id)
    ensures f.title == t.title && f.description == t.description && f.dueDate == t.dueDate
    ensures f.priority == t.priority && f.status == t.status && f.starred == t.starred
  {
    Editor.FormTask(Some(t.id), t.title, t.description, t.dueDate, t.priority, t.status, t.starred)
  }

  /**
   * Saving from the editor opened on a listed task updates that task, unless
   * its id is 0, which is falsy and so makes a create; saving from the
   * editor opened for a new task creates.
   */
  lemma SaveTargetOfEditor(t: Task, body: Tasks.Payload)
    ensures t.id != 0 ==> Editor.SaveRequest(Some(AsFormTask(t)), body) == UpdateTask(t.id, body)
    ensures t.id == 0 ==> Editor.SaveRequest(Some(AsFormTask(t)), body) == CreateTask(body)
    ensures Editor.SaveRequest(None, body) == CreateTask(body)
  {
  }

  class DashboardPage {
    var tasks: seq<Task>
    var filterStatus: string
    var filterPriority: string
    var showStarred: bool
    var searchQuery: string
    var isModalOpen: bool
    var editingTask: Option<Task>
    var isLoading: bool

    /** The state before the first load completes. */
    constructor ()
      ensures tasks == [] && filterStatus == All && filterPriority == All
      ensures !showStarred && searchQuery == ""
      ensures !isModalOpen && editingTask == None && isLoading
    {
      tasks := [];
      filterStatus := All;
      filterPriority := All;
      showStarred := false;
      searchQuery := "";
      isModalOpen := false;
      editingTask := None;
      isLoading := true;
    }

    /** The filter criteria currently selected. */
    function CurrentCriteria(): Criteria
      reads this
    {
      Criteria(filterStatus, filterPriority, showStarred, searchQuery)
    }

    /** `filteredTasks` for the current state. */
    function Visible(): seq<Task>
      reads this
    {
      FilteredTasks(tasks, CurrentCriteria())
    }

    /** The cards rendered: none while loading, the filtered tasks otherwise. */
    function Cards(): seq<Task>
      reads this
    {
      if isLoading then [] else Visible()
    }

    /** The task the editor is given, as its prop `task`. */
    function ModalTask(): Option<Editor.FormTask>
      reads this
    {
      if editingTask.Some? then Some(AsFormTask(editingTask.value)) else None
    }

    /** The synchronous part of `fetchTasks`: loading starts and GET /tasks/ is sent. */
    method BeginLoad(api: Client)
      modifies this`isLoading, api
      ensures isLoading && Cards() == []
      ensures api.sent == old(api.sent) + [ListTasks]
    {
      isLoading := true;
      api.Send(ListTasks);
    }

    /** The settlement of that GET: the data replaces `tasks` on success; loading always ends. */
    method EndLoad(outcome: Outcome<seq<Task>>)
      modifies this`tasks, this`isLoading
      ensures !isLoading
      ensures tasks == (if outcome.Success? then outcome.value else old(tasks))
      ensures Cards() == FilteredTasks(tasks, CurrentCriteria())
    {
      if outcome.Success? {
        tasks := outcome.value;
      }
      isLoading := false;
    }

    /** `fetchTasks` run to completion with the given outcome. */
    method FetchTasks(api: Client, outcome: Outcome<seq<Task>>)
      modifies this`tasks, this`isLoading, api
      ensures !isLoading
      ensures tasks == (if outcome.Success? then outcome.value else old(tasks))
      ensures api.sent == old(api.sent) + [ListTasks]
    {
      BeginLoad(api);
      EndLoad(outcome);
    }

    /**
     * `handleDelete(id)`: nothing happens unless the confirmation is
     * accepted; then DELETE /tasks/{id}/ is sent and, if it succeeds, the
     * list is reloaded. A failed delete is an unhandled rejection
     * (`rejected`), with no reload.
     */
    method HandleDelete(api: Client, id: int, confirmed: bool, deleted: Outcome<()>,
                        reloaded: Outcome<seq<Task>>) returns (rejected: bool)
      modifies this`tasks, this`isLoading, api
      ensures rejected <==> confirmed && deleted.Failure?
      ensures !confirmed ==> api.sent == old(api.sent)
      ensures confirmed ==>
        api.sent == old(api.sent) + [DeleteTask(id)] + (if deleted.Success? then [ListTasks] else [])
      ensures tasks == (if confirmed && deleted.Success? && reloaded.Success? then reloaded.value else old(tasks))
      ensures isLoading == (if confirmed && deleted.Success? then false else old(isLoading))
    {
      rejected := false;
      if confirmed {
        api.Send(DeleteTask(id));
        if deleted.Success? {
          FetchTasks(api, reloaded);
        } else {
          rejected := true;
        }
      }
    }

    /** `handleLogout`: the two session tokens are removed from storage, and nothing else. */
    method HandleLogout(storage: LocalStorage)
      modifies storage
      ensures storage.items == old(storage.items) - {AccessTokenKey, RefreshTokenKey}
      ensures AccessTokenKey !in storage.items && RefreshTokenKey !in storage.items
    {
      storage.RemoveItem(AccessTokenKey);
      storage.RemoveItem(RefreshTokenKey);
    }

    /** The "New Task" button: no task selected, editor open. */
    method OpenForCreate()
      modifies this`editingTask, this`isModalOpen
      ensures editingTask == None && isModalOpen
      ensures ModalTask() == None
    {
      editingTask := None;
      isModalOpen := true;
    }

    /** A card's edit button: that task selected, editor open. */
    method OpenForEdit(t: Task)
      modifies this`editingTask, this`isModalOpen
      ensures editingTask == Some(t) && isModalOpen
      ensures ModalTask() == Some(AsFormTask(t))
    {
      editingTask := Some(t);
      isModalOpen := true;
    }

    /** The editor's `onClose`: the editor closes; the selected task is kept. */
    method CloseModal()
      modifies this`isModalOpen
      ensures !isModalOpen
    {
      isModalOpen := false;
    }

    method SetSearchQuery(query: string)
      modifies this`searchQuery
      ensures searchQuery == query
    {
      searchQuery := query;
    }

    method SetFilterStatus(status: string)
      modifies this`filterStatus
      ensures filterStatus == status
    {
      filterStatus := status;
    }

    method SetFilterPriority(priority: string)
      modifies this`filterPriority
      ensures filterPriority == priority
    {
      filterPriority := priority;
    }

    /** The star button flips starred-only. */
    method ToggleStarred()
      modifies this`showStarred
      ensures showStarred == !old(showStarred)
    {
      showStarred := !showStarred;
    }
  }
}
