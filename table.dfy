/**
  The reusable table both list pages render: its controls row, its header,
  its body with the empty-state row, and the "Shows a to b of n entries"
  footer. A React node is modelled by the text it shows.
 */
module Table {
  import opened Js
  import Paging

  /** A column; `render` stands for the column's render callback, given the
      cell's value, the row and the row's index. */
  datatype Column = Column(key: string, text: string, sortable: Option<bool>,
                           render: Option<(JsValue, Fields, nat) -> string>)

  datatype Search = Search(enabled: bool, placeholder: Option<string>, value: string)

  /** The pagination settings; `hasSizeHandler` says whether an
      `onPageSizeChange` callback was given. */
  datatype Pager = Pager(enabled: bool, current: int, total: int, pageSize: int,
                         pageSizeOptions: Option<seq<string>>, hasSizeHandler: bool)

  datatype Controls = Controls(search: Option<Search>, pagination: Option<Pager>)

  const DefaultPageSizes: seq<string> := ["10", "25", "50", "100"]

  /** The options of the "Show ... Row" selector, or `None` when the selector
      is not drawn: it needs pagination enabled and a size handler. An empty
      list of options is kept, because an array is truthy. */
  function SizeSelector(controls: Option<Controls>): (r: Option<seq<string>>)
    ensures r.Some? <==> (controls.Some? && controls.value.pagination.Some? &&
      controls.value.pagination.value.enabled && controls.value.pagination.value.hasSizeHandler)
    ensures r.Some? && controls.value.pagination.value.pageSizeOptions.None? ==> r.value == DefaultPageSizes
    ensures r.Some? && controls.value.pagination.value.pageSizeOptions.Some? ==>
      r.value == controls.value.pagination.value.pageSizeOptions.value
  {
    match controls
    case None => None
    case Some(c) =>
      match c.pagination
      case None => None
      case Some(p) =>
        if p.enabled && p.hasSizeHandler then
          Some(if p.pageSizeOptions.Some? then p.pageSizeOptions.value else DefaultPageSizes)
        else None
  }

  /** The placeholder of the search box, or `None` when no box is drawn. */
  function SearchBox(controls: Option<Controls>): (r: Option<string>)
    ensures r.Some? <==> controls.Some? && controls.value.search.Some? && controls.value.search.value.enabled
    ensures r.Some? ==> r.value != ""
    ensures r.Some? && Present(controls.value.search.value.placeholder) ==>
      r.value == controls.value.search.value.placeholder.value
    ensures r.Some? && !Present(controls.value.search.value.placeholder) ==> r.value == "Search..."
  {
    match controls
    case None => None
    case Some(c) =>
      match c.search
      case None => None
      case Some(s) => if s.enabled then Some(OrElse(s.placeholder, "Search...")) else None
  }

  /** A header cell: the label text, followed by " ⬇" for a sortable column. */
  function HeaderLabel(c: Column): (r: string)
    ensures Flag(c.sortable) ==> r == c.text + " ⬇"
    ensures !Flag(c.sortable) ==> r == c.text
    ensures |r| >= |c.text| && r[..|c.text|] == c.text
  {
    if Flag(c.sortable) then c.text + " ⬇" else c.text
  }

  /** What React shows for a raw value: `true` shows nothing. */
  function Shown(v: JsValue): string
  {
    if v == Bool(true) then "" else ToStr(v)
  }

  /** A body cell: the render callback's output, or the raw value, with a
      falsy value (missing, empty, zero) shown as "N/A". */
  function Cell(c: Column, row: Fields, index: nat): (r: string)
    ensures c.render.Some? ==> r == c.render.value(Get(row, c.key), row, index)
    ensures c.render.None? && !Truthy(Get(row, c.key)) ==> r == "N/A"
    ensures c.render.None? && Get(row, c.key) == Str(r) ==> r != ""
    ensures c.render.None? ==> forall s :: Get(row, c.key) == Str(s) && s != "" ==> r == s
    ensures c.render.None? ==> forall n :: Get(row, c.key) == Num(n) && n != 0 ==> r == IntToString(n)
    ensures c.render.None? && Get(row, c.key) == Bool(true) ==> r == ""
  {
    if c.render.Some? then c.render.value(Get(row, c.key), row, index)
    else if Truthy(Get(row, c.key)) then Shown(Get(row, c.key))
    else "N/A"
  }

  /** A column without a callback shows a non-empty string value as it is and
      a missing key as "N/A". */
  lemma RawCells(c: Column, row: Fields, index: nat)
    requires c.render.None?
    ensures Lookup(row, c.key).None? ==> Cell(c, row, index) == "N/A"
    ensures forall s :: Get(row, c.key) == Str(s) && s != "" ==> Cell(c, row, index) == s
  {
  }

  /** The body: a single row with one cell spanning every column when there is
      nothing to show, otherwise one row per datum with one cell per column. */
  datatype Body = EmptyRow(colSpan: nat) | Rows(cells: seq<seq<string>>)

  function TableBody(columns: seq<Column>, data: seq<Fields>): (r: Body)
    ensures data == [] <==> r == EmptyRow(|columns|)
    ensures data != [] ==> r.Rows? && |r.cells| == |data|
    ensures data != [] ==> forall i :: 0 <= i < |data| ==> |r.cells[i]| == |columns|
    ensures data != [] ==> forall i, j :: 0 <= i < |data| && 0 <= j < |columns| ==>
      r.cells[i][j] == Cell(columns[j], data[i], i)
  {
    if data == [] then EmptyRow(|columns|)
    else Rows(seq(|data|, (i: int) requires 0 <= i < |data| =>
      seq(|columns|, (j: int) requires 0 <= j < |columns| => Cell(columns[j], data[i], i))))
  }

  /** The empty state: the title, then the description when it is not empty;
      nothing at all when the page gave no empty state. */
  datatype EmptyState = EmptyState(title: string, description: Option<string>)

  function EmptyStateText(e: Option<EmptyState>): (r: seq<string>)
    ensures e.None? ==> r == []
    ensures e.Some? ==> |r| >= 1 && r[0] == e.value.title
    ensures e.Some? ==> (|r| == 2 <==> Present(e.value.description))
  {
    match e
    case None => []
    case Some(s) => if Present(s.description) then [s.title, s.description.value] else [s.title]
  }

  // ---------------------------------------------------------------------------
  // The footer

  /** "Shows {from} to {to} of {of} entries". */
  datatype Footer = Footer(from: int, to: int, of: int)

  /** The footer's arithmetic, over the number of entries it is given: the
      table passes `data.length`. */
  function FooterText(current: int, pageSize: int, entries: nat): (r: Footer)
    ensures r.of == entries
    ensures entries == 0 ==> r.from == 0
    ensures entries > 0 ==> r.from == Paging.StartIndex(current, pageSize) + 1
    ensures r.to == Paging.Min(Paging.StartIndex(current, pageSize) + pageSize, entries)
  {
    var start := Paging.StartIndex(current, pageSize);
    Footer(if entries > 0 then start + 1 else 0, Paging.Min(start + pageSize, entries), entries)
  }

  /** The footer line, present only when pagination is enabled. */
  function FooterLine(controls: Option<Controls>, data: seq<Fields>): (r: Option<Footer>)
    ensures r.Some? <==> controls.Some? && controls.value.pagination.Some? && controls.value.pagination.value.enabled
    ensures r.Some? ==> r.value == FooterText(controls.value.pagination.value.current,
                                              controls.value.pagination.value.pageSize, |data|)
  {
    if controls.Some? && controls.value.pagination.Some? && controls.value.pagination.value.enabled then
      var p := controls.value.pagination.value;
      Some(FooterText(p.current, p.pageSize, |data|))
    else None
  }

  /** The footer as the two list pages get it: they hand the table the rows of
      the current page only, so the footer counts those rows. */
  function ShownFooter<T>(filtered: seq<T>, current: int, pageSize: int): Footer
  {
    FooterText(current, pageSize, |Paging.PageOf(filtered, current, pageSize)|)
  }

  /** From the second page on the footer as shown ends before it starts and
      reports no more entries than fit on one page. */
  lemma ShownFooterInverted<T>(filtered: seq<T>, current: int, pageSize: int)
    requires current >= 2 && pageSize >= 1
    requires Paging.PageOf(filtered, current, pageSize) != []
    ensures ShownFooter(filtered, current, pageSize).to < ShownFooter(filtered, current, pageSize).from
    ensures ShownFooter(filtered, current, pageSize).of <= pageSize
  {
    Paging.PageContents(filtered, current, pageSize);
    Paging.MulMonotone(1, current - 1, pageSize);
  }

  /** Fifteen matching entries, ten per page, second page:
      "Shows 11 to 5 of 5 entries". */
  lemma ShownFooterExample(filtered: seq<int>)
    requires |filtered| == 15
    ensures ShownFooter(filtered, 2, 10) == Footer(11, 5, 5)
  {
    Paging.PageContents(filtered, 2, 10);
  }

  /** The footer the pages evidently mean: the same arithmetic over the whole
      filtered list. */
  function IntendedFooter<T>(filtered: seq<T>, current: int, pageSize: int): Footer
  {
    FooterText(current, pageSize, |filtered|)
  }

  /** On every page that has rows, the intended footer names the numbers of
      the first and the last row shown and counts every filtered entry; with
      nothing filtered it reads "0 to 0 of 0". */
  lemma IntendedFooterNamesRows<T>(filtered: seq<T>, current: int, pageSize: int)
    requires current >= 1 && pageSize >= 1
    requires Paging.PageOf(filtered, current, pageSize) != []
    ensures IntendedFooter(filtered, current, pageSize).from == Paging.RowNumber(current, pageSize, 0)
    ensures IntendedFooter(filtered, current, pageSize).to ==
      Paging.RowNumber(current, pageSize, |Paging.PageOf(filtered, current, pageSize)| - 1)
    ensures IntendedFooter(filtered, current, pageSize).to - IntendedFooter(filtered, current, pageSize).from + 1 ==
      |Paging.PageOf(filtered, current, pageSize)|
    ensures IntendedFooter(filtered, current, pageSize).of == |filtered|
  {
    Paging.PageContents(filtered, current, pageSize);
  }

  lemma IntendedFooterEmpty<T>(filtered: seq<T>, current: int, pageSize: int)
    requires filtered == [] && current >= 1 && pageSize >= 1
    ensures IntendedFooter(filtered, current, pageSize) == Footer(0, 0, 0)
  {
  }

  /** The two footers agree on the first page of a list that fits on it. */
  lemma FootersAgreeOnSinglePage<T>(filtered: seq<T>, pageSize: int)
    requires pageSize >= 1 && |filtered| <= pageSize
    ensures ShownFooter(filtered, 1, pageSize) == IntendedFooter(filtered, 1, pageSize)
  {
    Paging.PageContents(filtered, 1, pageSize);
    if filtered != [] {
      assert Paging.PageOf(filtered, 1, pageSize) == filtered[0..|filtered|];
    }
  }
}
