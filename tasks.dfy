/**
 * The task fields shared by the task list and the editor: the priority and
 * status enumerations with the strings the API and the filter selects use,
 * and the body the editor sends on create or update.
 */
module Tasks {
  import opened Wrappers

  datatype Priority = Low | Medium | High

  datatype Status = Pending | InProgress | Completed

  /** The wire name of a priority: 'LOW' | 'MEDIUM' | 'HIGH'. */
  function PriorityName(p: Priority): string
  {
    match p
    case Low => "LOW"
    case Medium => "MEDIUM"
    case High => "HIGH"
  }

  /** The wire name of a status: 'PENDING' | 'IN_PROGRESS' | 'COMPLETED'. */
  function StatusName(s: Status): string
  {
    match s
    case Pending => "PENDING"
    case InProgress => "IN_PROGRESS"
    case Completed => "COMPLETED"
  }

  /** Distinct priorities have distinct wire names. */
  lemma PriorityNameInjective(p: Priority, q: Priority)
    ensures PriorityName(p) == PriorityName(q) <==> p == q
  {
  }

  /** Distinct statuses have distinct wire names. */
  lemma StatusNameInjective(s: Status, t: Status)
    ensures StatusName(s) == StatusName(t) <==> s == t
  {
  }

  /**
   * The body of a create or update request (`dataToSend`): the form's fields,
   * with the due date either a date string or JSON `null` (None).
   */
  datatype Payload = Payload(
    id: Option<int>,
    title: string,
    description: string,
    dueDate: Option<string>,
    priority: Priority,
    status: Status,
    starred: bool)
}
