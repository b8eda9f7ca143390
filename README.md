# Backlog board: item service and board page

A model of a small kanban backlog board. A Google Sheet holds the items: one
row per item in the fixed column order A..I (project, description, due date,
progress, priority, requester, assignee, category, date submitted), below a
header row. An item's id is its row number, so the first data row is item 2.

- `protocol.dfy` (module `Protocol`) holds the values the page and the service
  exchange: the item record, the POST and PUT request bodies, and the three
  kinds of reply (the item list, `{success: true}`, status 500 with `{error}`).
- `server.dfy` (module `Server`) models the service.
  - It reads the sheet as a table of string rows: `ListItems` is `getItems`.
  - It builds the one nine-cell row the POST handler appends (`AppendRow`).
  - It writes the single progress cell the PUT handler overwrites (`SetProgress`).
  - Class `SheetStore` holds the rows and has one method per HTTP handler.
  - Lemmas give what listing returns after an append or an update.
- `client.dfy` (module `Client`) models the board page.
  - `GetColumnId` maps a progress value to one of the four columns.
  - The kanban render partitions the item list into four columns, and the
    table render builds one row per item.
  - Class `Board` has cards, columns, the table, the dragged card and the view
    flag. Its methods are the page's handlers: render, load, drag start and
    end, drop and form submission.
  - A `Card` is an object, as a page element is. A card that a reload has
    already replaced can still be dropped, and then it is simply appended, as
    `appendChild` does.
- `sync.dfy` (module `Sync`) puts the two sides together. A drop or a form
  submission is followed by the service's write and the reload. The lemmas
  show that the reloaded page shows the written value.

The read path does not normalise anything: an empty or missing cell gets its
default (`Not Started` for progress, `Medium` for priority, empty text
otherwise), and any other value is copied verbatim. Only the page's column
placement sends an unknown progress to Not Started; the listed item keeps
the value as it stands in the sheet.

The page's handlers (the initial load, the drop and the form submission) all
reload with `loadItems` as written, which does not check the response status
(see "## Findings"). The model's handlers do the same: a status-500 reply to
the reload empties the four columns and leaves the table as it was.

## Model

| member | source | states |
|---|---|---|
| `Protocol.StatusCode` | server.js:65-74 | a handler answers 500 exactly on failure and 200 otherwise |
| `Server.ListItems` | server.js:38-63 | an empty or header-only sheet lists nothing; otherwise one item per data row, item k has id k+2, ids strictly increase and never exceed the row count |
| `Server.ListedFields` | server.js:49-60 | each field is the cell verbatim when it is present and non-empty, else its default ('' / 'Not Started' / 'Medium'); no value is normalised |
| `Server.ListedItemsDefaulted` | server.js:54-55 | every listed item has a non-empty progress and priority |
| `Server.RowRoundTrip` | server.js:49-60 | characterises the read mapping's column order: a row laid out A..I from an item reads back as that item (the service itself never writes a whole item) |
| `Server.ReadWriteRead` | server.js:49-60 | characterises the read mapping: re-reading a row laid out from a listed item gives the same item, so reading is idempotent over the A..I layout |
| `Server.Value` | server.js:79 | a field absent from the POST body is stored as an empty cell, a present one verbatim |
| `Server.AppendRow` | server.js:87 | the appended row has nine cells and its progress cell is 'Not Started' whatever the request says |
| `Server.SetCell` | server.js:104-111 | a one-cell write sets that cell and leaves every other cell of the row as it was, padding a short row with empty cells |
| `Server.SetProgress` | server.js:104-111 | writing a progress cell never adds or removes rows |
| `Server.AppendThenList` | server.js:82-89 | append then list: the earlier items are unchanged and one item is added at the end, with the next id, the request's fields and progress 'Not Started' |
| `Server.AppendToEmptySheet` | server.js:44-45 | on an empty sheet the appended row becomes the header and nothing lists |
| `Server.UpdateThenList` | server.js:99-111 | update then list: item `id` has the written progress ('Not Started' if it was empty); none of its other fields and no other item changes |
| `Server.SheetStore.GetItems` | server.js:65-74 | GET answers the listing of the current sheet, or 500 'Failed to fetch items' |
| `Server.SheetStore.AddItem` | server.js:76-96 | POST appends exactly one row after the existing rows and answers success, or leaves the sheet alone and answers 500 'Failed to add item' |
| `Server.SheetStore.UpdateProgress` | server.js:98-118 | PUT rewrites only cell D of row `id` with the unvalidated value; a body without `progress` leaves the sheet as it was and still answers success; a failing call leaves the sheet alone and answers 500 'Failed to update item'; all other rows are untouched |
| `Client.GetColumnId` | public/app.js:104-112 | 'In Progress', 'In Review' and 'Done' map to their columns, and every other value, 'Not Started' included, maps to Not Started (both directions) |
| `Client.StatusOf` | public/app.js:198-199 | the status a column sends maps back to that column and is never empty |
| `Client.ColumnLookup` | public/app.js:104-112 | the lookup as written finds no column exactly for the names a JavaScript object inherits, and otherwise agrees with GetColumnId |
| `Client.PrototypeNameHasNoColumn` | public/app.js:105-111 | progress 'constructor' finds no column as written, while the intended mapping puts it in Not Started |
| `Client.ColumnItemsAppend` | public/app.js:96-100 | the columns keep list order: the column of a concatenation is the concatenation of the columns |
| `Client.ColumnItemsMembers` | public/app.js:96-100 | an item is in column k exactly when it is in the list and its progress maps to k |
| `Client.ColumnsPartition` | public/app.js:96-100 | the four columns partition the list as multisets, so the card count equals the number of items |
| `Client.MoveKeepsOtherCards` | public/app.js:202-203 | after the optimistic move the dragged card is the target's last card and in no other column; every other card keeps its column and relative order |
| `Client.MoveCountsCards` | public/app.js:202-203 | the move neither loses nor duplicates cards: the dragged card is on the board once, every other card as often as before |
| `Client.RowOf` | public/app.js:142-154 | a table row shows the item's project, description, progress, priority, requester, assignee and category as they are, and its due date, or '-' when the due date is empty |
| `Client.TableRows` | public/app.js:138-156 | the table has one row per item |
| `Client.RenderedShowsEveryItemOnce` | public/app.js:89-101 | after a render each item is in exactly the column its progress selects, card counts add up to the list length, and the table row i belongs to item i |
| `Client.LoadIsIdempotent` | public/app.js:77-86 | loading twice with the same outcome shows the same page as loading once |
| `Client.LoadForgetsPreviousScreen` | public/app.js:91-94 | rendering clears first, so after a successful load the page does not depend on what it showed before |
| `Client.ErrorReplyClearsColumns` | public/app.js:77-86 | a 500 reply to the list request empties the kanban columns and keeps the table as written, but leaves the page alone under the intended load |
| `Client.Board.constructor` | public/app.js:224-225 | the page starts in kanban view with no drag, then shows the initial loadItems (as written) of empty containers |
| `Client.Board.ToggleView` | public/app.js:29-40 | the toggle flips the view flag, so two toggles restore it |
| `Client.Board.DragStart` | public/app.js:169-173 | dragging a rendered card makes it the dragged card |
| `Client.Board.DragEnd` | public/app.js:175-181 | dragend resets the dragged card to none |
| `Client.Board.RenderKanban` | public/app.js:89-101 | the columns hold new cards for exactly the items the column selects, in list order |
| `Client.Board.RenderTable` | public/app.js:138-156 | the table is rebuilt as one row per item, in list order |
| `Client.Board.LoadItems` | public/app.js:77-86 | loadItems as written, the load every handler uses: a failed fetch changes nothing, an item list re-renders both views, and an error body empties the columns and keeps the table |
| `Client.Board.Refresh` | public/app.js:77-86 | loadItems as intended (the corrected load of the first finding, called by no handler of the page as written): an item list re-renders both views, and any failure leaves the page exactly as it was |
| `Client.Board.MoveDragged` | public/app.js:198-203 | with a dragged card, that card moves to the target and the update for its id with the column's status is produced; without one, nothing changes |
| `Client.Board.Drop` | public/app.js:194-218 | with no dragged card nothing happens; otherwise the move is followed by loadItems whatever the PUT's outcome: the page ends as the render of the next item list, in the moved state if the reload gets no response, and with empty columns and the old table if the reload gets an error body |
| `Client.Board.SubmitItem` | public/app.js:56-73 | an ok reply to the POST triggers loadItems (an error body to that reload empties the columns and keeps the table); any other outcome alerts and leaves the page alone |
| `Sync.MoveConverges` | public/app.js:205-212 | after the PUT for a drop, the reloaded list has the item with the column's progress and all other fields as before, shows it in the target column only, and changes no other item |
| `Sync.CreateConverges` | server.js:82-89 | after a create, the reload shows the new item as the last Not Started card and the last table row, and the rest of the page as before |
| `Sync.DropAndSync` | public/app.js:194-218 | drop, PUT and GET together: the sheet gets the one-cell write if reachable, and the page ends as the render of the new listing, or, if the GET fails, with all four columns empty (the moved card included) and the table as before |
| `Sync.SubmitAndSync` | public/app.js:43-74 | submit, POST and GET together: the sheet gains the row if reachable; a failed POST leaves the page unchanged; after an ok POST the page shows the new listing, or, if the GET fails, empty columns and the table as before |

## Left out

- The Express server, routing, JSON body parsing, static files and `app.listen` are HTTP plumbing and are not modelled. The Google credentials, the environment and the Sheets client are not modelled either. The sheet is an in-memory table of rows.
- A failing sheet call is a boolean parameter (`reachable`). A call that fails is taken to have written nothing.
- Sheets' USER_ENTERED reinterpretation of written values (numbers, dates, formulas) is not modelled: cells hold the strings written.
- The append is modelled as adding a row after the last row. Sheets' table detection, which could place the row in a blank row inside the range, is not modelled.
- `dateSubmitted` is a parameter: `toLocaleDateString` depends on the clock and the locale.
- Server.SheetStore.UpdateProgress: a body without `progress` is taken to leave the cell as it was, because the Sheets API skips a null cell value; Sheets' own handling is not modelled beyond that. It requires 2 <= id <= |rows|. The page only sends ids of listed items, which lie in that range (Server.ListItems), and rows never shrink. Writes to the header row, past the last row or to a non-numeric id (after `parseInt`) are not modelled.
- The form fields are read from the page and the form is reset. The modal opens and closes. None of this is modelled, because it is DOM state. `SubmitItem` models only the alert-or-reload decision.
- Card and table markup, `escapeHtml`, priority CSS classes and drag-over highlighting are not modelled. A table row carries the raw field text.
- The column elements' `data-status` values come from the page's HTML, which is not part of this model. `StatusOf` takes them to be the four progress strings.
- The 30-second polling timer and the interleaving of in-flight fetches are not modelled. A reload is one atomic step, and a reply is a parameter.
- Client.Board.LoadItems: models the unchecked error body. An item whose progress is an inherited property name makes the render throw part way. That is not modelled here: it is shown at the lookup level by `ColumnLookup`.

## Findings

| source | as written | input that shows it | evidently intended | confidence | as-written member | corrected member |
|---|---|---|---|---|---|---|
| public/app.js:77-86 | `loadItems` never checks `response.ok`. The 500 body `{error}` reaches `renderKanban`, which empties the four columns and then throws at `items.forEach`. The catch only logs, and the table keeps the old items. | GET /api/items answers 500 `{"error":"Failed to fetch items"}` while the board shows one card | a failed load leaves the page as it was | medium, not executed | `Client.Board.LoadItems` (counterexample `Client.ErrorReplyClearsColumns`) | `Client.Board.Refresh` |
| public/app.js:104-112 | `mapping[progress] \|\| 'notStarted'` looks the value up in a plain object. A name every object inherits yields a function, `getElementById` then finds no column, and `appendChild` on null throws in the middle of the render. | a sheet row whose progress cell reads `constructor` | every value other than the four statuses goes to Not Started | medium, not executed | `Client.ColumnLookup` (counterexample `Client.PrototypeNameHasNoColumn`) | `Client.GetColumnId` |
