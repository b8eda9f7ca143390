/** Values exchanged between the board page and the item service:
    the item record, the bodies of the three HTTP requests and the
    replies the service sends back. */
module Protocol {

  datatype Option<+T> = None | Some(value: T)

  /** One work item as the service lists it. `id` is the item's row number
      in the sheet (the first data row has id 2). */
  datatype Item = Item(
    id: int,
    project: string,
    description: string,
    dueDate: string,
    progress: string,
    priority: string,
    requester: string,
    assignee: string,
    category: string,
    dateSubmitted: string)

  /** Body of POST /api/items. A field the client leaves out of the JSON
      body is `None`. */
  datatype ItemRequest = ItemRequest(
    project: Option<string>,
    description: Option<string>,
    dueDate: Option<string>,
    priority: Option<string>,
    requester: Option<string>,
    assignee: Option<string>,
    category: Option<string>)

  /** PUT /api/items/{id}/progress with body `{progress}`. */
  datatype ProgressUpdate = ProgressUpdate(id: int, progress: string)

  /** What a handler answers: the item array, `{success: true}`, or a
      status-500 reply whose body is `{error}`. */
  datatype Reply = ItemList(items: seq<Item>) | Success | Failure(error: string)

  const FETCH_ERROR := "Failed to fetch items"
  const ADD_ERROR := "Failed to add item"
  const UPDATE_ERROR := "Failed to update item"

  /** HTTP status of a reply: Express answers 200 unless the handler set 500. */
  function StatusCode(r: Reply): (code: nat)
    ensures code == 500 <==> r.Failure?
    ensures code == 200 <==> !r.Failure?
  {
    if r.Failure? then 500 else 200
  }

  /** `response.ok` of the browser's fetch: a status in 200..299. */
  predicate IsOk(r: Reply) {
    200 <= StatusCode(r) <= 299
  }
}
