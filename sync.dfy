/** The board page and the item service together: a drag to a column, or a
    submitted form, followed by the reload that re-derives the page from the
    sheet. */
module Sync {
  import opened Protocol
  import opened Server
  import opened Client

  lemma RenderedColumn(items: seq<Item>, k: ColumnId)
    ensures Rendered(items).Col(k) == ColumnItems(items, k)
  {
  }

  /** After the PUT for a drop on `target`, the reload lists the item with
      that column's progress and every other field as before, shows it in the
      target column and in no other, and changes no other item. */
  lemma {:induction false} MoveConverges(rows: Table, id: int, target: ColumnId)
    requires 2 <= id <= |rows|
    ensures var before, after := ListItems(rows), ListItems(SetProgress(rows, id, StatusOf(target)));
      |after| == |before| &&
      after[id - 2] == before[id - 2].(progress := StatusOf(target)) &&
      (forall k :: after[id - 2] in Rendered(after).Col(k) <==> k == target) &&
      (forall j :: 0 <= j < |after| && j != id - 2 ==> after[j] == before[j])
  {
    var after := ListItems(SetProgress(rows, id, StatusOf(target)));
    UpdateThenList(rows, id, StatusOf(target));
    forall k
      ensures after[id - 2] in Rendered(after).Col(k) <==> k == target
    {
      RenderedColumn(after, k);
      ColumnItemsMembers(after, k, after[id - 2]);
    }
  }

  /** After a create on a sheet with a header, the reload shows one new card,
      the request's item with progress Not Started, as the last card of the
      Not Started column and as the last table row; the rest of the page is
      as a reload of the old sheet would show it. */
  lemma {:induction false} CreateConverges(rows: Table, req: ItemRequest, dateSubmitted: string)
    requires |rows| >= 1
    ensures var before := ListItems(rows);
      var created := CreatedItem(req, dateSubmitted, |rows| + 1);
      var s, s' := Rendered(before), Rendered(ListItems(rows + [AppendRow(req, dateSubmitted)]));
      created.progress == NOT_STARTED &&
      s'.notStarted == s.notStarted + [created] &&
      s'.inProgress == s.inProgress && s'.inReview == s.inReview && s'.done == s.done &&
      s'.table == s.table + [RowOf(created)]
  {
    var before := ListItems(rows);
    var created := CreatedItem(req, dateSubmitted, |rows| + 1);
    AppendThenList(rows, req, dateSubmitted);
    var after := before + [created];
    assert after[..|before|] == before;
    assert GetColumnId(created.progress) == NotStarted;
    assert TableRows(after) == TableRows(before) + [RowOf(created)];
  }

  /** A drop followed by the service's handling of the PUT and of the next
      GET. Whether each store call succeeds is a parameter. When the GET
      fails, the reload as written empties the four columns (the moved card
      included) and keeps the table. */
  method DropAndSync(store: SheetStore, board: Board, target: ColumnId, putReachable: bool, getReachable: bool)
    requires board.dragged.Some? && 2 <= board.dragged.value.item.id <= |store.rows|
    modifies store, board
    ensures var id := old(board.dragged).value.item.id;
      store.rows == if putReachable then SetProgress(old(store.rows), id, StatusOf(target)) else old(store.rows)
    ensures getReachable ==> board.Shown() == Rendered(ListItems(store.rows))
    ensures !getReachable ==> board.kanban == EMPTY_KANBAN && board.table == old(board.table)
    ensures !getReachable ==> board.Shown() == Screen([], [], [], [], old(board.table))
  {
    var id := board.dragged.value.item.id;
    var putReply := store.UpdateProgress(id, Some(StatusOf(target)), putReachable);
    var reply := store.GetItems(getReachable);
    var put := board.Drop(target, Received(putReply), Received(reply));
    // the request the drop handler sends is the one the service handled
    assert put == Some(ProgressUpdate(id, StatusOf(target)));
  }

  /** A form submission followed by the service's POST handling and the
      reload. A failed POST alerts and changes nothing; a failed GET after an
      ok POST empties the four columns and keeps the table. */
  method SubmitAndSync(store: SheetStore, board: Board, req: ItemRequest, dateSubmitted: string,
                       postReachable: bool, getReachable: bool)
    modifies store, board
    ensures store.rows == if postReachable then old(store.rows) + [AppendRow(req, dateSubmitted)] else old(store.rows)
    ensures postReachable && getReachable ==> board.Shown() == Rendered(ListItems(store.rows))
    ensures !postReachable ==> board.kanban == old(board.kanban) && board.table == old(board.table)
    ensures postReachable && !getReachable ==> board.kanban == EMPTY_KANBAN && board.table == old(board.table)
    ensures postReachable && !getReachable ==> board.Shown() == Screen([], [], [], [], old(board.table))
  {
    var postReply := store.AddItem(req, dateSubmitted, postReachable);
    var reply := store.GetItems(getReachable);
    var alerted := board.SubmitItem(Received(postReply), Received(reply));
  }
}
