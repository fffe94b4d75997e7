/**
 * The four list views. A view is the table body, the info line and the
 * pagination element; the `fetch*` functions write it from a paged list
 * reply and `updateTable` overwrites it with search results.
 */
module Tables {

  import opened Catalog
  import opened Paging

  /** One data row: its cells left to right (the actions cell aside) and the
      `data-id` of its edit and delete buttons. */
  datatype Row = Row(cells: seq<string>, dataId: string)

  /** The table body: data rows, or a single message row with its `colspan`. */
  datatype Body =
    | Blank
    | Rows(rows: seq<Row>)
    | NoRecords(colspan: nat)
    | LoadError(colspan: nat)
    | NoResults(colspan: nat)

  /** The info line: "Mostrando start-end de total registro(s)", "Mostrando 0
      registro(s)", "Mostrando n resultado(s) de búsqueda", "Mostrando 0
      resultado(s)", or whatever the page was loaded with. */
  datatype Info = Unset | Showing(window: Window) | ZeroRecords | SearchCount(count: nat) | ZeroResults

  datatype TableView = TableView(body: Body, info: Info, pager: Pager)

  const INITIAL_VIEW: TableView := TableView(Blank, Unset, INITIAL_PAGER)

  /** The `colspan` of the search "no results" row, the same for every table. */
  const NO_RESULTS_COLSPAN: nat := 6

  function CellsOf(item: Item, columns: seq<string>): (cells: seq<string>)
    ensures |cells| == |columns|
    ensures forall i :: 0 <= i < |columns| ==> cells[i] == Cell(item, columns[i])
  {
    seq(|columns|, i requires 0 <= i < |columns| => Cell(item, columns[i]))
  }

  /** A row as a `fetch*` function writes it: `id` and `nombre` interpolated
      as they are, the other columns with `|| ''`. */
  function FetchRow(e: Entity, item: Item): Row {
    Row([Raw(item, "id"), Raw(item, "nombre")] + CellsOf(item, FetchColumns(e)[2..]), Raw(item, "id"))
  }

  function FetchRows(e: Entity, data: seq<Item>): seq<Row> {
    seq(|data|, i requires 0 <= i < |data| => FetchRow(e, data[i]))
  }

  /** A row as `updateTable` writes it: every column with `|| ''`. */
  function SearchRow(tableType: string, item: Item): Row {
    Row(CellsOf(item, ColumnsFor(tableType)), Raw(item, "id"))
  }

  function SearchRows(tableType: string, data: seq<Item>): seq<Row> {
    seq(|data|, i requires 0 <= i < |data| => SearchRow(tableType, data[i]))
  }

  /** The `response.data.forEach` loop of a `fetch*` function. */
  method RenderFetchRows(e: Entity, data: seq<Item>) returns (rows: seq<Row>)
    ensures rows == FetchRows(e, data)
  {
    rows := [];
    var i := 0;
    while i < |data|
      invariant 0 <= i <= |data|
      invariant |rows| == i
      invariant forall k :: 0 <= k < i ==> rows[k] == FetchRow(e, data[k])
    {
      var item := data[i];
      var row := Row([Raw(item, "id"), Raw(item, "nombre")] + CellsOf(item, FetchColumns(e)[2..]), Raw(item, "id"));
      rows := rows + [row];
      i := i + 1;
    }
  }

  /** `updateTable`'s two nested loops: over the records, and for each over
      the table's columns. */
  method RenderSearchRows(tableType: string, data: seq<Item>) returns (rows: seq<Row>)
    ensures rows == SearchRows(tableType, data)
  {
    var columns := ColumnsFor(tableType);
    rows := [];
    var i := 0;
    while i < |data|
      invariant 0 <= i <= |data|
      invariant |rows| == i
      invariant forall k :: 0 <= k < i ==> rows[k] == SearchRow(tableType, data[k])
    {
      var item := data[i];
      var cells: seq<string> := [];
      var j := 0;
      while j < |columns|
        invariant 0 <= j <= |columns|
        invariant |cells| == j
        invariant forall k :: 0 <= k < j ==> cells[k] == Cell(item, columns[k])
      {
        cells := cells + [Cell(item, columns[j])];
        j := j + 1;
      }
      rows := rows + [Row(cells, Raw(item, "id"))];
      i := i + 1;
    }
  }

  /** `fetch<Entities>(page)` given the reply to its list request. */
  function Fetched(view: TableView, e: Entity, page: int, reply: Reply): TableView {
    match reply
    case Threw => view.(body := LoadError(EmptyColspan(e)))
    case Replied(success, data, total) =>
      if success && |data| > 0 then
        var t := EffectiveTotal(total, |data|);
        TableView(Rows(FetchRows(e, data)), Showing(WindowOf(page, t)), SetupPagination(page, t))
      else
        TableView(NoRecords(EmptyColspan(e)), ZeroRecords, view.pager.(visible := false))
  }

  /** `updateTable(tableType, data)`. */
  function Searched(view: TableView, tableType: string, data: seq<Item>): TableView {
    if |data| > 0 then
      TableView(Rows(SearchRows(tableType, data)), SearchCount(|data|), view.pager.(visible := false))
    else
      TableView(NoResults(NO_RESULTS_COLSPAN), ZeroResults, view.pager.(visible := false))
  }

  /** The cells of a fetched row follow the entity's columns, and together
      with the actions cell they are exactly as many as the `colspan` of the
      entity's message rows. */
  lemma FetchRowSpec(e: Entity, item: Item)
    ensures |FetchRow(e, item).cells| == |FetchColumns(e)| == EmptyColspan(e) - 1
    ensures FetchRow(e, item).cells[0] == Raw(item, "id") && FetchRow(e, item).cells[1] == Raw(item, "nombre")
    ensures forall i :: 2 <= i < |FetchColumns(e)| ==> FetchRow(e, item).cells[i] == Cell(item, FetchColumns(e)[i])
    ensures FetchRow(e, item).dataId == Raw(item, "id")
  {
  }

  /** A fetched row and a search row of the same record agree whenever the
      record has `id` and `nombre`; without an `id` the fetched row shows
      "undefined" where the search row shows nothing. */
  lemma RowsAgree(e: Entity, item: Item)
    ensures "id" in item && "nombre" in item ==> FetchRow(e, item) == SearchRow(TableName(e), item)
    ensures "id" !in item ==>
      FetchRow(e, item).cells[0] == "undefined" && SearchRow(TableName(e), item).cells[0] == ""
  {
    TableDispatch(e);
    var f := FetchRow(e, item);
    var s := SearchRow(TableName(e), item);
    if "id" in item && "nombre" in item {
      assert |f.cells| == |s.cells|;
      forall i | 0 <= i < |f.cells| ensures f.cells[i] == s.cells[i] {
      }
    }
  }

  /** What a fetch shows: a thrown call keeps the info line and the
      pagination and only writes the error row; a successful non-empty page
      shows its rows, the window of `page` and a pagination armed at `page`
      that is visible exactly when there is more than one page; anything else
      is the "no records" row with the pagination hidden. */
  lemma FetchedSpec(view: TableView, e: Entity, page: int, reply: Reply)
    ensures reply.Threw? ==>
      Fetched(view, e, page, reply) == TableView(LoadError(EmptyColspan(e)), view.info, view.pager)
    ensures Succeeded(reply) && |reply.data| > 0 ==>
      var t := EffectiveTotal(reply.total, |reply.data|);
      var v := Fetched(view, e, page, reply);
      && v.body.Rows? && |v.body.rows| == |reply.data|
      && (forall i :: 0 <= i < |reply.data| ==> v.body.rows[i].dataId == Raw(reply.data[i], "id"))
      && v.info == Showing(WindowOf(page, t)) && t != 0
      && v.pager.armed && v.pager.page == page
      && (v.pager.visible <==> TotalPages(t) > 1)
    ensures reply.Replied? && (!reply.success || |reply.data| == 0) ==>
      Fetched(view, e, page, reply) == TableView(NoRecords(EmptyColspan(e)), ZeroRecords, view.pager.(visible := false))
  {
  }

  /** What a search overlay shows: the records, their count, and the
      pagination hidden (its handlers left as they were). */
  lemma SearchedSpec(view: TableView, e: Entity, data: seq<Item>)
    ensures Searched(view, TableName(e), data).pager == view.pager.(visible := false)
    ensures |data| > 0 ==>
      var v := Searched(view, TableName(e), data);
      && v.body.Rows? && |v.body.rows| == |data|
      && (forall i :: 0 <= i < |data| ==> |v.body.rows[i].cells| == EmptyColspan(e) - 1)
      && v.info == SearchCount(|data|)
    ensures |data| == 0 ==> Searched(view, TableName(e), data).body == NoResults(NO_RESULTS_COLSPAN)
    ensures |data| == 0 ==> Searched(view, TableName(e), data).info == ZeroResults
  {
    TableDispatch(e);
  }

  /** A successful non-empty fetch does not depend on what the view showed
      before, search results included. */
  lemma FetchedForgetsView(v1: TableView, v2: TableView, e: Entity, page: int, reply: Reply)
    requires Succeeded(reply) && |reply.data| > 0
    ensures Fetched(v1, e, page, reply) == Fetched(v2, e, page, reply)
  {
  }

  // ----- the global search over all four tables -----

  predicate AnyThrew(replies: Quad<Reply>) {
    replies.mov.Threw? || replies.cost.Threw? || replies.cat.Threw? || replies.con.Threw?
  }

  /** One table after the search replies: overlaid when its reply succeeded. */
  function Overlaid(view: TableView, e: Entity, reply: Reply): TableView {
    if Succeeded(reply) then Searched(view, TableName(e), reply.data) else view
  }

  /** `performGlobalSearch` with a query: the four search replies arrive
      together and, if none of them threw, every table whose reply succeeded
      is overlaid; one thrown call rejects the whole `Promise.all` and no
      table changes. */
  function SearchOutcome(tables: Quad<TableView>, replies: Quad<Reply>): Quad<TableView> {
    if AnyThrew(replies) then tables
    else
      Quad(Overlaid(tables.mov, TipoMovimiento, replies.mov),
           Overlaid(tables.cost, TipoCosto, replies.cost),
           Overlaid(tables.cat, Categoria, replies.cat),
           Overlaid(tables.con, Concepto, replies.con))
  }

  /** `performGlobalSearch` with an empty query: every table is fetched
      again at its current page. */
  function RefetchAll(tables: Quad<TableView>, pages: Quad<int>, replies: Quad<Reply>): Quad<TableView> {
    Quad(Fetched(tables.mov, TipoMovimiento, pages.mov, replies.mov),
         Fetched(tables.cost, TipoCosto, pages.cost, replies.cost),
         Fetched(tables.cat, Categoria, pages.cat, replies.cat),
         Fetched(tables.con, Concepto, pages.con, replies.con))
  }

  lemma SearchOutcomeSpec(tables: Quad<TableView>, replies: Quad<Reply>, e: Entity)
    ensures AnyThrew(replies) ==> SearchOutcome(tables, replies) == tables
    ensures !AnyThrew(replies) && Succeeded(replies.At(e)) ==>
      && SearchOutcome(tables, replies).At(e) == Searched(tables.At(e), TableName(e), replies.At(e).data)
      && !SearchOutcome(tables, replies).At(e).pager.visible
    ensures !AnyThrew(replies) && !Succeeded(replies.At(e)) ==>
      SearchOutcome(tables, replies).At(e) == tables.At(e)
  {
  }

  lemma RefetchAllAt(tables: Quad<TableView>, pages: Quad<int>, replies: Quad<Reply>, e: Entity)
    ensures RefetchAll(tables, pages, replies).At(e) == Fetched(tables.At(e), e, pages.At(e), replies.At(e))
  {
  }

  /** Clearing the search undoes it: unless a table's list call throws,
      searching and then clearing leaves it as if no search had run, and a
      page with rows puts its pagination back at the page it was on. When the
      list call throws, the error row replaces the results but the search's
      info line and hidden pagination stay. */
  lemma ClearingRestores(tables: Quad<TableView>, searchReplies: Quad<Reply>,
                         pages: Quad<int>, replies: Quad<Reply>, e: Entity)
    ensures !replies.At(e).Threw? ==>
      RefetchAll(SearchOutcome(tables, searchReplies), pages, replies).At(e)
        == RefetchAll(tables, pages, replies).At(e)
    ensures Succeeded(replies.At(e)) && |replies.At(e).data| > 0 ==>
      var v := RefetchAll(SearchOutcome(tables, searchReplies), pages, replies).At(e);
      && v.pager.page == pages.At(e)
      && (v.pager.visible <==> TotalPages(EffectiveTotal(replies.At(e).total, |replies.At(e).data|)) > 1)
    ensures replies.At(e).Threw? ==>
      var searched := SearchOutcome(tables, searchReplies).At(e);
      var v := RefetchAll(SearchOutcome(tables, searchReplies), pages, replies).At(e);
      && v.body == LoadError(EmptyColspan(e))
      && v.info == searched.info && v.pager == searched.pager
  {
    RefetchAllAt(SearchOutcome(tables, searchReplies), pages, replies, e);
    RefetchAllAt(tables, pages, replies, e);
    if Succeeded(replies.At(e)) && |replies.At(e).data| > 0 {
      FetchedForgetsView(SearchOutcome(tables, searchReplies).At(e), tables.At(e), e, pages.At(e), replies.At(e));
    } else if !replies.At(e).Threw? {
      SearchOutcomeSpec(tables, searchReplies, e);
    }
  }
}
