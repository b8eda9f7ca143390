/** The item service over its sheet. The sheet is an ordered table of
    string rows (columns A..I); row 0 is the header, and an item's id is its
    1-based row number, so data row k (0-based) is item k + 2. */
module Server {
  import opened Protocol

  type Row = seq<string>
  type Table = seq<Row>

  const NOT_STARTED := "Not Started"
  const MEDIUM := "Medium"
  /** Column D, the progress column, as a 0-based cell index. */
  const PROGRESS_COL := 3
  /** Cells per written row: columns A..I. */
  const WIDTH := 9

  /** `row[col] || default`: a cell that is missing or empty reads as the default. */
  function Cell(row: Row, col: nat, default: string): string {
    if col < |row| && row[col] != "" then row[col] else default
  }

  /** The record built from one data row (no validation: any non-empty
      progress or priority is copied as it stands). */
  function RowToItem(row: Row, id: int): Item {
    Item(id,
         Cell(row, 0, ""), Cell(row, 1, ""), Cell(row, 2, ""),
         Cell(row, 3, NOT_STARTED), Cell(row, 4, MEDIUM),
         Cell(row, 5, ""), Cell(row, 6, ""), Cell(row, 7, ""), Cell(row, 8, ""))
  }

  /** getItems: skip the header, map every other row to an item. */
  function ListItems(rows: Table): (items: seq<Item>)
    ensures |rows| <= 1 ==> items == []
    ensures |rows| > 1 ==> |items| == |rows| - 1
    ensures forall k :: 0 <= k < |items| ==> items[k].id == k + 2 && items[k].id <= |rows|
    ensures forall i, j :: 0 <= i < j < |items| ==> items[i].id < items[j].id
  {
    if |rows| <= 1 then []
    else seq(|rows| - 1, k requires 0 <= k < |rows| - 1 => RowToItem(rows[k + 1], k + 2))
  }

  /** The row written back for an item: the fixed column order A..I. */
  function ItemToRow(item: Item): (row: Row)
    ensures |row| == WIDTH
  {
    [item.project, item.description, item.dueDate, item.progress, item.priority,
     item.requester, item.assignee, item.category, item.dateSubmitted]
  }

  /** An item in the form listing produces: progress and priority are never empty. */
  predicate Defaulted(item: Item) {
    item.progress != "" && item.priority != ""
  }

  /** A field absent from the POST body is stored as an empty cell. */
  function Value(field: Option<string>): (s: string)
    ensures field.Some? ==> s == field.value
    ensures field.None? ==> s == ""
  {
    if field.Some? then field.value else ""
  }

  /** The one row the POST handler appends; progress is forced to Not Started. */
  function AppendRow(req: ItemRequest, dateSubmitted: string): (row: Row)
    ensures |row| == WIDTH && row[PROGRESS_COL] == NOT_STARTED
  {
    [Value(req.project), Value(req.description), Value(req.dueDate), NOT_STARTED,
     Value(req.priority), Value(req.requester), Value(req.assignee), Value(req.category),
     dateSubmitted]
  }

  /** The item that listing yields for a freshly appended row with id `id`. */
  function CreatedItem(req: ItemRequest, dateSubmitted: string, id: int): Item {
    Item(id, Value(req.project), Value(req.description), Value(req.dueDate), NOT_STARTED,
         if Value(req.priority) == "" then MEDIUM else Value(req.priority),
         Value(req.requester), Value(req.assignee), Value(req.category), dateSubmitted)
  }

  /** Overwrite one cell; a row shorter than the cell is padded with empty cells. */
  function SetCell(row: Row, col: nat, v: string): (r: Row)
    ensures |r| == if col < |row| then |row| else col + 1
    ensures r[col] == v
    ensures forall j :: 0 <= j < |r| && j != col ==> r[j] == (if j < |row| then row[j] else "")
  {
    if col < |row| then row[col := v]
    else row + seq(col - |row|, _ => "") + [v]
  }

  /** The sheet after the PUT handler writes cell D{id}. */
  function SetProgress(rows: Table, id: int, progress: string): (r: Table)
    requires 2 <= id <= |rows|
    ensures |r| == |rows|
  {
    rows[id - 1 := SetCell(rows[id - 1], PROGRESS_COL, progress)]
  }

  // ---------------------------------------------------------------------
  // Properties of the read path.

  /** Listing copies every non-empty cell of a data row verbatim and
      substitutes the default for every missing or empty one. */
  lemma ListedFields(rows: Table, k: nat)
    requires k + 1 < |rows|
    ensures var item, row := ListItems(rows)[k], rows[k + 1];
      item.id == k + 2 &&
      (if |row| > 0 && row[0] != "" then item.project == row[0] else item.project == "") &&
      (if |row| > 1 && row[1] != "" then item.description == row[1] else item.description == "") &&
      (if |row| > 2 && row[2] != "" then item.dueDate == row[2] else item.dueDate == "") &&
      (if |row| > 3 && row[3] != "" then item.progress == row[3] else item.progress == NOT_STARTED) &&
      (if |row| > 4 && row[4] != "" then item.priority == row[4] else item.priority == MEDIUM) &&
      (if |row| > 5 && row[5] != "" then item.requester == row[5] else item.requester == "") &&
      (if |row| > 6 && row[6] != "" then item.assignee == row[6] else item.assignee == "") &&
      (if |row| > 7 && row[7] != "" then item.category == row[7] else item.category == "") &&
      (if |row| > 8 && row[8] != "" then item.dateSubmitted == row[8] else item.dateSubmitted == "")
  {
  }

  /** Every listed item has a progress and a priority. */
  lemma ListedItemsDefaulted(rows: Table)
    ensures forall item :: item in ListItems(rows) ==> Defaulted(item)
  {
  }

  /** Writing an item out in column order and reading it back gives it back. */
  lemma RowRoundTrip(item: Item)
    requires Defaulted(item)
    ensures RowToItem(ItemToRow(item), item.id) == item
  {
  }

  /** Reading, writing back and reading again changes nothing. */
  lemma ReadWriteRead(row: Row, id: int)
    ensures RowToItem(ItemToRow(RowToItem(row, id)), id) == RowToItem(row, id)
  {
  }

  // ---------------------------------------------------------------------
  // Listing after the two writes.

  /** Append then list: the earlier items are unchanged and one item is added
      at the end, with the next id, the request's fields and progress Not Started. */
  lemma AppendThenList(rows: Table, req: ItemRequest, dateSubmitted: string)
    requires |rows| >= 1
    ensures ListItems(rows + [AppendRow(req, dateSubmitted)])
         == ListItems(rows) + [CreatedItem(req, dateSubmitted, |rows| + 1)]
  {
  }

  /** On an empty sheet the appended row becomes the header, so nothing lists. */
  lemma AppendToEmptySheet(req: ItemRequest, dateSubmitted: string)
    ensures ListItems([] + [AppendRow(req, dateSubmitted)]) == []
  {
  }

  /** Update then list: the item with the given id now has the written progress
      (Not Started if an empty string was written); no other field and no other
      item changes. */
  lemma UpdateThenList(rows: Table, id: int, progress: string)
    requires 2 <= id <= |rows|
    ensures var before, after := ListItems(rows), ListItems(SetProgress(rows, id, progress));
      |after| == |before| &&
      after[id - 2] == before[id - 2].(progress := if progress == "" then NOT_STARTED else progress) &&
      forall k :: 0 <= k < |after| && k != id - 2 ==> after[k] == before[k]
  {
  }

  // ---------------------------------------------------------------------
  // The sheet behind the three HTTP handlers.

  /** The sheet that the service reads and writes. `reachable` stands for
      whether the spreadsheet call succeeds; when it does not, the handler
      answers status 500 with its error message. */
  class SheetStore {
    var rows: Table

    constructor (rows: Table)
      ensures this.rows == rows
    {
      this.rows := rows;
    }

    /** GET /api/items. */
    method GetItems(reachable: bool) returns (reply: Reply)
      ensures reachable ==> reply == ItemList(ListItems(rows))
      ensures !reachable ==> reply == Failure(FETCH_ERROR) && StatusCode(reply) == 500
    {
      if reachable {
        reply := ItemList(ListItems(rows));
      } else {
        reply := Failure(FETCH_ERROR);
      }
    }

    /** POST /api/items: append one row after the existing ones. */
    method AddItem(req: ItemRequest, dateSubmitted: string, reachable: bool) returns (reply: Reply)
      modifies this
      ensures reachable ==> rows == old(rows) + [AppendRow(req, dateSubmitted)] && reply == Success
      ensures !reachable ==> rows == old(rows) && reply == Failure(ADD_ERROR)
    {
      if reachable {
        rows := rows + [AppendRow(req, dateSubmitted)];
        reply := Success;
      } else {
        reply := Failure(ADD_ERROR);
      }
    }

    /** PUT /api/items/{id}/progress: write only cell D{id}, unvalidated. A
        body without `progress` sends a null cell, which the sheet skips: the
        cell keeps its value and the handler still answers success. */
    method UpdateProgress(id: int, progress: Option<string>, reachable: bool) returns (reply: Reply)
      requires 2 <= id <= |rows|
      modifies this
      ensures reachable && progress.Some? ==> rows == SetProgress(old(rows), id, progress.value)
      ensures reachable && progress.None? ==> rows == old(rows)
      ensures reachable ==> reply == Success
      ensures !reachable ==> rows == old(rows) && reply == Failure(UPDATE_ERROR)
      ensures |rows| == |old(rows)|
      ensures forall r :: 0 <= r < |rows| && r != id - 1 ==> rows[r] == old(rows)[r]
    {
      if reachable {
        if progress.Some? {
          rows := SetProgress(rows, id, progress.value);
        }
        reply := Success;
      } else {
        reply := Failure(UPDATE_ERROR);
      }
    }
  }
}
