/** The board page: four kanban columns and a table, rebuilt from the item
    list on every load, plus the drag-and-drop move that updates one item's
    progress optimistically and then reloads. */
module Client {
  import opened Protocol

  /** The four kanban columns (element ids notStarted, inProgress, inReview, done). */
  datatype ColumnId = NotStarted | InProgress | InReview | Done

  /** getColumnId: the column an item's progress places it in; any value
      other than the three named ones lands in Not Started. */
  function GetColumnId(progress: string): (k: ColumnId)
    ensures k == InProgress <==> progress == "In Progress"
    ensures k == InReview <==> progress == "In Review"
    ensures k == Done <==> progress == "Done"
    ensures k == NotStarted <==> progress != "In Progress" && progress != "In Review" && progress != "Done"
  {
    if progress == "Not Started" then NotStarted
    else if progress == "In Progress" then InProgress
    else if progress == "In Review" then InReview
    else if progress == "Done" then Done
    else NotStarted
  }

  /** The progress value a column stands for (its data-status), sent in the
      PUT when a card is dropped on it. */
  function StatusOf(k: ColumnId): (status: string)
    ensures GetColumnId(status) == k
    ensures status != ""
  {
    match k
    case NotStarted => "Not Started"
    case InProgress => "In Progress"
    case InReview => "In Review"
    case Done => "Done"
  }

  /** Property names every plain JavaScript object inherits; looking one of
      them up in the mapping object yields a truthy non-string. */
  const PROTOTYPE_NAMES: set<string> := {
    "constructor", "hasOwnProperty", "isPrototypeOf", "propertyIsEnumerable",
    "toLocaleString", "toString", "valueOf", "__proto__",
    "__defineGetter__", "__defineSetter__", "__lookupGetter__", "__lookupSetter__"}

  /** getColumnId as written: `mapping[progress] || 'notStarted'` over an
      object literal. An inherited name yields no column at all (`None`):
      getElementById finds nothing and the append that follows throws. */
  function ColumnLookup(progress: string): (r: Option<ColumnId>)
    ensures r.None? <==> progress in PROTOTYPE_NAMES
    ensures r.Some? ==> r.value == GetColumnId(progress)
  {
    if progress == "Not Started" then Some(NotStarted)
    else if progress == "In Progress" then Some(InProgress)
    else if progress == "In Review" then Some(InReview)
    else if progress == "Done" then Some(Done)
    else if progress in PROTOTYPE_NAMES then None
    else Some(NotStarted)
  }

  /** A progress cell reading "constructor" finds no column under the lookup
      as written, while the intended mapping puts it in Not Started. */
  lemma PrototypeNameHasNoColumn()
    ensures ColumnLookup("constructor").None?
    ensures GetColumnId("constructor") == NotStarted
  {
  }

  // ---------------------------------------------------------------------
  // The kanban partition.

  /** The items of `items` whose progress places them in column `k`, in list order. */
  function ColumnItems(items: seq<Item>, k: ColumnId): (col: seq<Item>)
    decreases |items|
  {
    if items == [] then []
    else
      var last := items[|items| - 1];
      ColumnItems(items[..|items| - 1], k) + (if GetColumnId(last.progress) == k then [last] else [])
  }

  /** Filling a column preserves list order: the column of a concatenation is
      the concatenation of the columns. */
  lemma {:induction false} ColumnItemsAppend(a: seq<Item>, b: seq<Item>, k: ColumnId)
    ensures ColumnItems(a + b, k) == ColumnItems(a, k) + ColumnItems(b, k)
    decreases |b|
  {
    if b == [] {
      assert a + b == a;
    } else {
      var b' := b[..|b| - 1];
      assert (a + b)[..|a + b| - 1] == a + b';
      ColumnItemsAppend(a, b', k);
    }
  }

  /** An item is in column k exactly when it is in the list and its progress maps to k. */
  lemma {:induction false} ColumnItemsMembers(items: seq<Item>, k: ColumnId, x: Item)
    ensures x in ColumnItems(items, k) <==> x in items && GetColumnId(x.progress) == k
    decreases |items|
  {
    if items != [] {
      var init := items[..|items| - 1];
      ColumnItemsMembers(init, k, x);
      assert items == init + [items[|items| - 1]];
    }
  }

  /** The four columns partition the list: every item, with its multiplicity,
      is in exactly the column its progress selects. */
  lemma {:induction false} ColumnsPartition(items: seq<Item>)
    ensures multiset(items) == multiset(ColumnItems(items, NotStarted)) + multiset(ColumnItems(items, InProgress))
                             + multiset(ColumnItems(items, InReview)) + multiset(ColumnItems(items, Done))
    ensures |items| == |ColumnItems(items, NotStarted)| + |ColumnItems(items, InProgress)|
                     + |ColumnItems(items, InReview)| + |ColumnItems(items, Done)|
    decreases |items|
  {
    if items != [] {
      var init := items[..|items| - 1];
      ColumnsPartition(init);
      assert items == init + [items[|items| - 1]];
    }
  }

  // ---------------------------------------------------------------------
  // Cards and columns of cards.

  /** A rendered card: a page element built from one item. Two cards built
      from equal items are still different elements. */
  class Card {
    const item: Item

    constructor (item: Item)
      ensures this.item == item
    {
      this.item := item;
    }
  }

  /** The items the cards of a column were built from, in column order. */
  function CardItems(cards: seq<Card>): (items: seq<Item>)
    ensures |items| == |cards|
    ensures forall i :: 0 <= i < |cards| ==> items[i] == cards[i].item
  {
    if cards == [] then []
    else CardItems(cards[..|cards| - 1]) + [cards[|cards| - 1].item]
  }

  /** `cards` with every occurrence of `c` taken out, the rest in order. */
  function Without(cards: seq<Card>, c: Card): (r: seq<Card>)
    ensures c !in r
    ensures |r| <= |cards|
  {
    if cards == [] then []
    else
      var last := cards[|cards| - 1];
      Without(cards[..|cards| - 1], c) + (if last == c then [] else [last])
  }

  lemma {:induction false} WithoutIdempotent(cards: seq<Card>, c: Card)
    ensures Without(Without(cards, c), c) == Without(cards, c)
    decreases |cards|
  {
    if cards != [] {
      var init, last := cards[..|cards| - 1], cards[|cards| - 1];
      WithoutIdempotent(init, c);
      var w := Without(init, c);
      if last != c {
        assert Without(cards, c) == w + [last];
        assert (w + [last])[..|w|] == w;
        assert Without(w + [last], c) == Without(w, c) + [last];
      } else {
        assert Without(cards, c) == w;
      }
    }
  }

  lemma {:induction false} WithoutCount(cards: seq<Card>, c: Card, x: Card)
    ensures multiset(Without(cards, c))[x] == if x == c then 0 else multiset(cards)[x]
    decreases |cards|
  {
    if cards != [] {
      var init := cards[..|cards| - 1];
      WithoutCount(init, c, x);
      assert cards == init + [cards[|cards| - 1]];
    }
  }

  /** The cards of the four columns. */
  datatype Kanban = Kanban(notStarted: seq<Card>, inProgress: seq<Card>, inReview: seq<Card>, done: seq<Card>)
  {
    function Col(k: ColumnId): seq<Card> {
      match k
      case NotStarted => notStarted
      case InProgress => inProgress
      case InReview => inReview
      case Done => done
    }

    function Cards(): seq<Card> {
      notStarted + inProgress + inReview + done
    }

    /** The board with column `k` holding `cards`, the other columns as they are. */
    function Put(k: ColumnId, cards: seq<Card>): (b: Kanban)
      ensures b.Col(k) == cards
      ensures forall j :: j != k ==> b.Col(j) == Col(j)
    {
      match k
      case NotStarted => this.(notStarted := cards)
      case InProgress => this.(inProgress := cards)
      case InReview => this.(inReview := cards)
      case Done => this.(done := cards)
    }

    /** appendChild(c) on the target column: the card leaves wherever it is
        and becomes the target's last card. */
    function Move(c: Card, target: ColumnId): Kanban {
      Kanban(Moved(notStarted, c, target == NotStarted), Moved(inProgress, c, target == InProgress),
             Moved(inReview, c, target == InReview), Moved(done, c, target == Done))
    }
  }

  /** One column after `c` is appended to the target column. */
  function Moved(cards: seq<Card>, c: Card, isTarget: bool): seq<Card> {
    if isTarget then Without(cards, c) + [c] else Without(cards, c)
  }

  const EMPTY_KANBAN := Kanban([], [], [], [])

  lemma MoveColumn(b: Kanban, c: Card, target: ColumnId, k: ColumnId)
    ensures b.Move(c, target).Col(k) == Moved(b.Col(k), c, k == target)
  {
  }

  lemma WithoutAppendSelf(cards: seq<Card>, c: Card)
    ensures Without(cards + [c], c) == Without(cards, c)
  {
    assert (cards + [c])[..|cards|] == cards;
  }

  /** In one column, the cards other than `c` are where they were. */
  lemma MovedKeepsOthers(cards: seq<Card>, c: Card, isTarget: bool)
    ensures Without(Moved(cards, c, isTarget), c) == Without(cards, c)
  {
    WithoutIdempotent(cards, c);
    if isTarget {
      WithoutAppendSelf(Without(cards, c), c);
    }
  }

  lemma MovedCount(cards: seq<Card>, c: Card, isTarget: bool, x: Card)
    ensures multiset(Moved(cards, c, isTarget))[x]
         == if x == c then (if isTarget then 1 else 0) else multiset(cards)[x]
  {
    WithoutCount(cards, c, x);
  }

  /** The optimistic move moves that one card only: afterwards it is the last
      card of the target and in no other column, and every other card is in
      the same column, in the same order, as before. */
  lemma {:induction false} MoveKeepsOtherCards(b: Kanban, c: Card, target: ColumnId)
    ensures b.Move(c, target).Col(target) == Without(b.Col(target), c) + [c]
    ensures forall k :: k != target ==> c !in b.Move(c, target).Col(k)
    ensures forall k :: Without(b.Move(c, target).Col(k), c) == Without(b.Col(k), c)
  {
    forall k
      ensures b.Move(c, target).Col(k) == Moved(b.Col(k), c, k == target)
      ensures Without(b.Move(c, target).Col(k), c) == Without(b.Col(k), c)
    {
      MoveColumn(b, c, target, k);
      MovedKeepsOthers(b.Col(k), c, k == target);
    }
  }

  /** No card is lost or duplicated by the move: the moved card is on the
      board exactly once and every other card as many times as before. */
  lemma {:induction false} MoveCountsCards(b: Kanban, c: Card, target: ColumnId, x: Card)
    ensures multiset(b.Move(c, target).Cards())[x] == if x == c then 1 else multiset(b.Cards())[x]
  {
    MovedCount(b.notStarted, c, target == NotStarted, x);
    MovedCount(b.inProgress, c, target == InProgress, x);
    MovedCount(b.inReview, c, target == InReview, x);
    MovedCount(b.done, c, target == Done, x);
  }

  lemma CardItemsSnoc(cards: seq<Card>, card: Card)
    ensures CardItems(cards + [card]) == CardItems(cards) + [card.item]
  {
    assert (cards + [card])[..|cards|] == cards;
  }

  lemma ColumnItemsSnoc(items: seq<Item>, x: Item, k: ColumnId)
    ensures ColumnItems(items + [x], k) == ColumnItems(items, k) + (if GetColumnId(x.progress) == k then [x] else [])
  {
    assert (items + [x])[..|items|] == items;
  }

  /** Every column of `b` holds cards for exactly the items of `items` that
      belong in it, in list order. */
  predicate ShowsColumns(b: Kanban, items: seq<Item>) {
    forall k :: CardItems(b.Col(k)) == ColumnItems(items, k)
  }

  /** One step of renderKanban: appending the card for the next item to its
      column keeps every column showing exactly that column's items. */
  lemma AppendCardStep(b: Kanban, items: seq<Item>, card: Card)
    requires ShowsColumns(b, items)
    ensures ShowsColumns(b.Put(GetColumnId(card.item.progress), b.Col(GetColumnId(card.item.progress)) + [card]),
                         items + [card.item])
  {
    var k := GetColumnId(card.item.progress);
    var b' := b.Put(k, b.Col(k) + [card]);
    forall j
      ensures CardItems(b'.Col(j)) == ColumnItems(items + [card.item], j)
    {
      ColumnItemsSnoc(items, card.item, j);
      if j == k {
        CardItemsSnoc(b.Col(k), card);
      }
    }
  }

  // ---------------------------------------------------------------------
  // What the page shows.

  /** One row of the table view: the eight displayed cells. */
  datatype TableRow = TableRow(
    project: string, description: string, dueDate: string, progress: string,
    priority: string, requester: string, assignee: string, category: string)

  /** The table row for an item; an empty due date is shown as "-". */
  function RowOf(item: Item): (row: TableRow)
    ensures row.dueDate != ""
    ensures item.dueDate != "" ==> row.dueDate == item.dueDate
    ensures item.dueDate == "" ==> row.dueDate == "-"
    ensures row.project == item.project && row.description == item.description &&
            row.progress == item.progress && row.priority == item.priority &&
            row.requester == item.requester && row.assignee == item.assignee &&
            row.category == item.category
  {
    TableRow(item.project, item.description, if item.dueDate == "" then "-" else item.dueDate,
             item.progress, item.priority, item.requester, item.assignee, item.category)
  }

  function TableRows(items: seq<Item>): (rows: seq<TableRow>)
    ensures |rows| == |items|
  {
    seq(|items|, i requires 0 <= i < |items| => RowOf(items[i]))
  }

  /** The page as the user sees it: the items behind each column's cards, and the table. */
  datatype Screen = Screen(
    notStarted: seq<Item>, inProgress: seq<Item>, inReview: seq<Item>, done: seq<Item>,
    table: seq<TableRow>)
  {
    function Col(k: ColumnId): seq<Item> {
      match k
      case NotStarted => notStarted
      case InProgress => inProgress
      case InReview => inReview
      case Done => done
    }
  }

  function ScreenOf(b: Kanban, table: seq<TableRow>): Screen {
    Screen(CardItems(b.notStarted), CardItems(b.inProgress), CardItems(b.inReview), CardItems(b.done), table)
  }

  /** renderKanban then renderTable from scratch. */
  function Rendered(items: seq<Item>): Screen {
    Screen(ColumnItems(items, NotStarted), ColumnItems(items, InProgress),
           ColumnItems(items, InReview), ColumnItems(items, Done), TableRows(items))
  }

  lemma ScreenOfRendered(b: Kanban, table: seq<TableRow>, items: seq<Item>)
    requires ShowsColumns(b, items)
    requires table == TableRows(items)
    ensures ScreenOf(b, table) == Rendered(items)
  {
    assert CardItems(b.Col(NotStarted)) == ColumnItems(items, NotStarted);
    assert CardItems(b.Col(InProgress)) == ColumnItems(items, InProgress);
    assert CardItems(b.Col(InReview)) == ColumnItems(items, InReview);
    assert CardItems(b.Col(Done)) == ColumnItems(items, Done);
  }

  /** A render depends on the list alone: each item is shown in exactly the
      column its progress selects, in list order, the card count is the list's
      length, and the table has one row per item in list order. */
  lemma RenderedShowsEveryItemOnce(items: seq<Item>)
    ensures var s := Rendered(items);
      (forall k, x :: x in s.Col(k) <==> x in items && GetColumnId(x.progress) == k) &&
      multiset(items) == multiset(s.notStarted) + multiset(s.inProgress) + multiset(s.inReview) + multiset(s.done) &&
      |items| == |s.notStarted| + |s.inProgress| + |s.inReview| + |s.done| &&
      |s.table| == |items| &&
      (forall i :: 0 <= i < |items| ==> s.table[i] == RowOf(items[i]))
  {
    forall k, x
      ensures x in Rendered(items).Col(k) <==> x in items && GetColumnId(x.progress) == k
    {
      ColumnItemsMembers(items, k, x);
    }
    ColumnsPartition(items);
  }

  /** What a fetch produced: nothing (the request rejected, or the body was
      not JSON) or a reply body. */
  datatype Fetched = NoResponse | Received(reply: Reply)

  /** loadItems as written: the response status is not checked, so an error
      body reaches renderKanban, which clears the four columns and then throws
      on `items.forEach`; the table is left as it was. */
  function AfterLoad(s: Screen, f: Fetched): Screen {
    match f
    case NoResponse => s
    case Received(ItemList(items)) => Rendered(items)
    case Received(_) => s.(notStarted := [], inProgress := [], inReview := [], done := [])
  }

  /** loadItems as intended: only an item list replaces what is shown; any
      failure leaves the page exactly as it was. */
  function AfterRefresh(s: Screen, f: Fetched): Screen {
    if f.Received? && f.reply.ItemList? then Rendered(f.reply.items) else s
  }

  /** Loading twice with the same outcome shows the same page as loading once,
      whichever definition is used. */
  lemma LoadIsIdempotent(s: Screen, f: Fetched)
    ensures AfterLoad(AfterLoad(s, f), f) == AfterLoad(s, f)
    ensures AfterRefresh(AfterRefresh(s, f), f) == AfterRefresh(s, f)
  {
  }

  /** After a successful load the page no longer depends on what it showed before. */
  lemma LoadForgetsPreviousScreen(s1: Screen, s2: Screen, items: seq<Item>)
    ensures AfterLoad(s1, Received(ItemList(items))) == AfterLoad(s2, Received(ItemList(items)))
    ensures AfterRefresh(s1, Received(ItemList(items))) == AfterRefresh(s2, Received(ItemList(items)))
  {
  }

  /** A status-500 reply to the list request wipes the kanban columns under
      the code as written but leaves the page alone under the intended load. */
  lemma ErrorReplyClearsColumns(item: Item)
    ensures var s := Rendered([item]);
      var f := Received(Failure(FETCH_ERROR));
      AfterLoad(s, f) != s && AfterLoad(s, f).table == s.table &&
      AfterRefresh(s, f) == s
  {
  }

  // ---------------------------------------------------------------------
  // The page's state.

  class Board {
    var kanban: Kanban
    var table: seq<TableRow>
    /** draggedCard: the card being dragged, if any. */
    var dragged: Option<Card>
    var isKanbanView: bool

    function Shown(): Screen
      reads this
    {
      ScreenOf(kanban, table)
    }

    /** The page as loaded: empty containers, kanban view, no drag, then the
        initial loadItems. */
    constructor (initial: Fetched)
      ensures Shown() == AfterLoad(Screen([], [], [], [], []), initial)
      ensures dragged == None && isKanbanView
    {
      kanban := EMPTY_KANBAN;
      table := [];
      dragged := None;
      isKanbanView := true;
      new;
      LoadItems(initial);
    }

    /** The view toggle button. */
    method ToggleView()
      modifies this`isKanbanView
      ensures isKanbanView == !old(isKanbanView)
    {
      isKanbanView := !isKanbanView;
    }

    /** dragstart on one of the rendered cards. */
    method DragStart(c: Card)
      requires c in kanban.Cards()
      modifies this`dragged
      ensures dragged == Some(c)
    {
      dragged := Some(c);
    }

    /** dragend: no card is being dragged any more. */
    method DragEnd()
      modifies this`dragged
      ensures dragged == None
    {
      dragged := None;
    }

    /** renderKanban: clear the four columns, then append one new card per
        item to the column its progress selects. */
    method RenderKanban(items: seq<Item>)
      modifies this`kanban
      ensures ShowsColumns(kanban, items)
      ensures forall k, c :: c in kanban.Col(k) ==> fresh(c)
    {
      kanban := EMPTY_KANBAN;
      var i := 0;
      while i < |items|
        invariant 0 <= i <= |items|
        invariant ShowsColumns(kanban, items[..i])
        invariant forall k, c :: c in kanban.Col(k) ==> fresh(c)
      {
        var card := new Card(items[i]);
        var k := GetColumnId(items[i].progress);
        AppendCardStep(kanban, items[..i], card);
        assert items[..i + 1] == items[..i] + [items[i]];
        var next := kanban.Put(k, kanban.Col(k) + [card]);
        forall j, c | c in next.Col(j)
          ensures fresh(c)
        {
          if j != k {
            assert c in kanban.Col(j);
          }
        }
        kanban := next;
        i := i + 1;
      }
      assert items[..i] == items;
    }

    /** renderTable: clear the table body, then append one row per item. */
    method RenderTable(items: seq<Item>)
      modifies this`table
      ensures table == TableRows(items)
    {
      table := [];
      var i := 0;
      while i < |items|
        invariant 0 <= i <= |items|
        invariant |table| == i
        invariant forall j :: 0 <= j < i ==> table[j] == RowOf(items[j])
      {
        table := table + [RowOf(items[i])];
        i := i + 1;
      }
    }

    /** loadItems as written (see AfterLoad). */
    method LoadItems(f: Fetched)
      modifies this`kanban, this`table
      ensures Shown() == AfterLoad(old(Shown()), f)
      ensures f.NoResponse? ==> kanban == old(kanban) && table == old(table)
      ensures f.Received? && !f.reply.ItemList? ==> kanban == EMPTY_KANBAN && table == old(table)
    {
      if f.Received? {
        if f.reply.ItemList? {
          RenderKanban(f.reply.items);
          RenderTable(f.reply.items);
          ScreenOfRendered(kanban, table, f.reply.items);
        } else {
          kanban := EMPTY_KANBAN;
        }
      }
    }

    /** loadItems as intended (see AfterRefresh): the corrected load. The
        page's handlers call loadItems as written, so they use LoadItems. */
    method Refresh(f: Fetched)
      modifies this`kanban, this`table
      ensures Shown() == AfterRefresh(old(Shown()), f)
      ensures !(f.Received? && f.reply.ItemList?) ==> kanban == old(kanban) && table == old(table)
      ensures f.Received? && f.reply.ItemList? ==> forall k, c :: c in kanban.Col(k) ==> fresh(c)
    {
      if f.Received? && f.reply.ItemList? {
        RenderKanban(f.reply.items);
        RenderTable(f.reply.items);
        ScreenOfRendered(kanban, table, f.reply.items);
      }
    }

    /** The local phase of a drop: move the dragged card to the target column
        and say which progress update to send. */
    method MoveDragged(target: ColumnId) returns (put: Option<ProgressUpdate>)
      modifies this`kanban
      ensures old(dragged).None? ==> put.None? && kanban == old(kanban)
      ensures old(dragged).Some? ==>
        put == Some(ProgressUpdate(dragged.value.item.id, StatusOf(target))) &&
        kanban == old(kanban).Move(dragged.value, target)
    {
      if dragged.Some? {
        kanban := kanban.Move(dragged.value, target);
        put := Some(ProgressUpdate(dragged.value.item.id, StatusOf(target)));
      } else {
        put := None;
      }
    }

    /** The drop handler: with no dragged card nothing happens; otherwise the
        card moves at once, the update is sent, and the page reloads with
        loadItems as written whatever became of the update (`putReply` is
        never inspected). */
    method Drop(target: ColumnId, putReply: Fetched, reload: Fetched) returns (put: Option<ProgressUpdate>)
      modifies this`kanban, this`table
      ensures old(dragged).None? ==> put.None? && kanban == old(kanban) && table == old(table)
      ensures old(dragged).Some? ==>
        put == Some(ProgressUpdate(dragged.value.item.id, StatusOf(target))) &&
        Shown() == AfterLoad(ScreenOf(old(kanban).Move(dragged.value, target), old(table)), reload)
      ensures old(dragged).Some? && reload.Received? && reload.reply.ItemList? ==>
        Shown() == Rendered(reload.reply.items)
      ensures old(dragged).Some? && reload.NoResponse? ==>
        kanban == old(kanban).Move(dragged.value, target) && table == old(table)
      ensures old(dragged).Some? && reload.Received? && !reload.reply.ItemList? ==>
        kanban == EMPTY_KANBAN && table == old(table)
    {
      put := MoveDragged(target);
      if put.Some? {
        ghost var moved := ScreenOf(kanban, table);
        assert moved == ScreenOf(old(kanban).Move(dragged.value, target), old(table));
        LoadItems(reload);
        assert Shown() == AfterLoad(moved, reload);
      }
    }

    /** Form submission: on an ok reply the page reloads with loadItems as
        written; otherwise the user is alerted and the page is left as it was. */
    method SubmitItem(postReply: Fetched, reload: Fetched) returns (alerted: bool)
      modifies this`kanban, this`table
      ensures alerted <==> !(postReply.Received? && IsOk(postReply.reply))
      ensures alerted ==> kanban == old(kanban) && table == old(table)
      ensures !alerted ==> Shown() == AfterLoad(old(Shown()), reload)
      ensures !alerted && reload.Received? && !reload.reply.ItemList? ==>
        kanban == EMPTY_KANBAN && table == old(table)
    {
      if postReply.Received? && IsOk(postReply.reply) {
        LoadItems(reload);
        alerted := false;
      } else {
        alerted := true;
      }
    }
  }
}
