/**
 * The REST client `api` as the components see it. The HTTP layer and the
 * backend are not part of this model: each call is recorded in `sent`, and
 * its outcome is supplied by the caller of the component operation.
 */
module Api {
  import opened Wrappers
  import opened Tasks

  /** One request: GET /tasks/, POST /tasks/, PUT /tasks/{id}/ or DELETE /tasks/{id}/. */
  datatype Request =
    | ListTasks
    | CreateTask(body: Payload)
    | UpdateTask(id: int, body: Payload)
    | DeleteTask(id: int)

  /** One value of the error body object: a single message or a list of messages. */
  datatype ErrorValue = Message(text: string) | Messages(texts: seq<string>)

  /**
   * The settled promise of a call: resolved with a value, or rejected. A
   * rejection carries the values of `err.response.data` (in `Object.values`
   * order) when there is a response with data, and None otherwise.
   */
  datatype Outcome<T> = Success(value: T) | Failure(data: Option<seq<ErrorValue>>)

  class Client {
    /** Every request issued so far, oldest first. */
    var sent: seq<Request>

    constructor ()
      ensures sent == []
    {
      sent := [];
    }

    /** Issues one request. */
    method Send(r: Request)
      modifies this
      ensures sent == old(sent) + [r]
    {
      sent := sent + [r];
    }
  }
}
