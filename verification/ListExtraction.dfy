/** Extraction of a list of rows over several result pages. */
module ListExtraction {
  import opened Text

  /** A cell of a row: no such element, its raw text, or an error while reading it. */
  datatype Cell = NoCell | Raw(text: string) | CellError

  /** What a row has in each column. */
  type Row = string -> Cell

  /** What became of the next button on a page. */
  datatype Button = Missing | Disabled | LookupFailed | Clicked | ClickedThenFailed

  /** One page of results; `rows` is None when the query for them raises. */
  datatype View = View(rows: Option<seq<Row>>, button: Button)

  /** A declared column: transform and coercion, None where they raise, and its default. */
  datatype Column<V> = Column(name: string, convert: string -> Option<V>, default: V)

  datatype Field<V> = Field(columns: seq<Column<V>>, maxItems: Option<int>, maxPages: Option<int>)

  // ------------------------------------------------------------------------------- one row

  function ValueOf<V>(c: Column<V>, cell: Cell): V {
    match cell
    case Raw(text) => var v := c.convert(text); if v.Some? then v.value else c.default
    case _ => c.default
  }

  function RowData<V>(columns: seq<Column<V>>, row: Row): map<string, V> {
    if columns == [] then map[]
    else
      var c := columns[|columns| - 1];
      RowData(columns[..|columns| - 1], row)[c.name := ValueOf(c, row(c.name))]
  }

  predicate DistinctNames<V>(columns: seq<Column<V>>) {
    forall i, j | 0 <= i < j < |columns| :: columns[i].name != columns[j].name
  }

  predicate Declares<V>(columns: seq<Column<V>>, name: string) {
    exists i | 0 <= i < |columns| :: columns[i].name == name
  }

  lemma {:induction false} RowColumns<V>(columns: seq<Column<V>>, row: Row)
    requires DistinctNames(columns)
    ensures forall name :: name in RowData(columns, row) <==> Declares(columns, name)
    ensures forall i | 0 <= i < |columns| :: columns[i].name in RowData(columns, row)
              && RowData(columns, row)[columns[i].name] == ValueOf(columns[i], row(columns[i].name))
  {
    hide ValueOf;
    if columns != [] {
      var n := |columns| - 1;
      var init, last := columns[..n], columns[n];
      RowColumns(init, row);
      forall name ensures Declares(columns, name) <==> Declares(init, name) || name == last.name {
        if Declares(init, name) {
          var i :| 0 <= i < n && init[i].name == name;
          assert columns[i].name == name;
        }
      }
      forall i | 0 <= i < n ensures columns[i].name != last.name && columns[i] == init[i] {}
    }
  }

  /** A row has exactly the declared columns: each with its converted text, or with its
      default where the cell is missing or raises or the text does not convert. */
  lemma RowHasItsColumns<V>(columns: seq<Column<V>>, row: Row)
    requires DistinctNames(columns)
    ensures forall name :: name in RowData(columns, row) <==> Declares(columns, name)
    ensures forall i | 0 <= i < |columns| :: columns[i].name in RowData(columns, row)
              && var c, v := columns[i], RowData(columns, row)[columns[i].name];
                 match row(c.name)
                 case Raw(text) => v == (match c.convert(text) case Some(value) => value case None => c.default)
                 case _ => v == c.default
  {
    RowColumns(columns, row);
    hide RowData, Declares;
  }

  function RowsData<V>(columns: seq<Column<V>>, rows: seq<Row>): (r: seq<map<string, V>>)
    ensures |r| == |rows| && forall i | 0 <= i < |rows| :: r[i] == RowData(columns, rows[i])
  {
    seq(|rows|, i requires 0 <= i < |rows| => RowData(columns, rows[i]))
  }

  // ------------------------------------------------------------------------------- the pages

  function MaxPages<V>(field: Field<V>): int { if field.maxPages.Some? then field.maxPages.value else 1 }

  /** What reading pages from the k-th on yields: the rows, how many pages were read and
      buttons clicked, and whether a query raised. */
  datatype Crawl = Crawl(rows: seq<Row>, read: nat, clicks: nat, failed: bool)

  function CrawlFrom(views: nat -> View, maxPages: int, k: nat): Crawl
    decreases maxPages - k
  {
    if k >= maxPages then Crawl([], 0, 0, false)
    else if views(k).rows.None? then Crawl([], 1, 0, true)
    else if views(k).rows.value == [] then Crawl([], 1, 0, false)
    else if k == maxPages - 1 then Crawl(views(k).rows.value, 1, 0, false)
    else
      match views(k).button
      case Clicked =>
        var rest := CrawlFrom(views, maxPages, k + 1);
        Crawl(views(k).rows.value + rest.rows, rest.read + 1, rest.clicks + 1, rest.failed)
      case ClickedThenFailed => Crawl(views(k).rows.value, 1, 1, false)
      case _ => Crawl(views(k).rows.value, 1, 0, false)
  }

  /** The rows of pages k to n - 1. */
  function RowsBetween(views: nat -> View, k: nat, n: nat): seq<Row>
    requires k <= n
    decreases n - k
  {
    if k == n then [] else (if views(k).rows.Some? then views(k).rows.value else []) + RowsBetween(views, k + 1, n)
  }

  predicate HasRows(v: View) { v.rows.Some? && v.rows.value != [] }

  /** Pages k to n - 1 have rows and lead from one to the next by their buttons. */
  ghost predicate Chain(views: nat -> View, k: nat, n: nat) {
    forall j: nat | k <= j < n :: HasRows(views(j)) && (j + 1 < n ==> views(j).button == Clicked)
  }

  /** Why a crawl with `n` pages of rows went no further. */
  predicate Ends(views: nat -> View, maxPages: int, k: nat, n: nat) {
    || n >= maxPages
    || (n > k && views(n - 1).button != Clicked)
    || !HasRows(views(n))
  }

  /** A crawl yields the rows of the longest chain of pages, in order; besides that chain it
      reads the empty or failing page that a button leads to, and never more than it may; and
      it clicks once between two pages, and once more if a button leads nowhere. */
  lemma {:induction false} CrawlIsChain(views: nat -> View, maxPages: int, k: nat) returns (n: nat)
    requires k <= maxPages
    ensures k <= n <= maxPages && Chain(views, k, n) && Ends(views, maxPages, k, n)
    ensures var c := CrawlFrom(views, maxPages, k);
            && c.rows == RowsBetween(views, k, n)
            && c.read == n - k + (if n < maxPages && (n == k || views(n - 1).button == Clicked) then 1 else 0)
            && (var led := n < maxPages && n > k && views(n - 1).button in {Clicked, ClickedThenFailed};
                c.clicks == if n == k then 0 else if led then n - k else n - k - 1)
            && n - k <= c.read <= n - k + 1
            && c.read <= maxPages - k
            && c.clicks <= c.read && (k < maxPages ==> c.clicks <= maxPages - 1 - k)
            && (c.failed <==> c.read == n - k + 1 && views(n).rows.None?)
    decreases maxPages - k
  {
    if k == maxPages || !HasRows(views(k)) {
      n := k;
    } else if k == maxPages - 1 || views(k).button != Clicked {
      n := k + 1;
      assert RowsBetween(views, k, n) == views(k).rows.value + [];
    } else {
      n := CrawlIsChain(views, maxPages, k + 1);
    }
  }

  // ------------------------------------------------------------------------------- the limit

  /** `max_items`: absent or zero is no limit, and a negative limit leaves nothing. */
  function Limited<T>(maxItems: Option<int>, s: seq<T>): seq<T> {
    if maxItems.None? || maxItems.value == 0 || maxItems.value >= |s| then s
    else if maxItems.value < 0 then []
    else s[..maxItems.value]
  }

  /** The limit leaves the beginning of a list, as long as the limit says. */
  lemma LimitedIs<T>(maxItems: Option<int>, s: seq<T>)
    ensures var r := Limited(maxItems, s);
            && r == s[..|r|]
            && |r| == match maxItems
                      case None => |s|
                      case Some(n) => if n == 0 || n > |s| then |s| else if n < 0 then 0 else n
  {}

  predicate Full<T>(maxItems: Option<int>, s: seq<T>) {
    maxItems.Some? && maxItems.value != 0 && |s| >= maxItems.value
  }

  lemma FullStaysFull<T>(maxItems: Option<int>, a: seq<T>, b: seq<T>)
    requires Full(maxItems, Limited(maxItems, a))
    ensures Limited(maxItems, a + b) == Limited(maxItems, a)
  {}

  lemma RoomForOne<T>(maxItems: Option<int>, a: seq<T>, x: T)
    requires !Full(maxItems, Limited(maxItems, a))
    ensures Limited(maxItems, a) == a && Limited(maxItems, a + [x]) == a + [x]
  {}

  lemma RowsConcat<V>(columns: seq<Column<V>>, a: seq<Row>, b: seq<Row>)
    ensures RowsData(columns, a + b) == RowsData(columns, a) + RowsData(columns, b)
  {}

  lemma Associates<T>(a: seq<T>, b: seq<T>, c: seq<T>)
    ensures a + (b + c) == a + b + c && a + b + [] == a + b
  {}

  lemma NothingYet<V>(field: Field<V>)
    ensures Limited(field.maxItems, RowsData(field.columns, [])) == []
  {}

  // ------------------------------------------------------------------------------ extraction

  class DataExtractor<V> {
    /** One row, column by column. */
    method ExtractRow(columns: seq<Column<V>>, row: Row) returns (data: map<string, V>)
      ensures data == RowData(columns, row)
    {
      data := map[];
      for i := 0 to |columns|
        invariant data == RowData(columns[..i], row)
      {
        var c := columns[i];
        assert columns[..i + 1][..i] == columns[..i];
        var value := c.default;
        match row(c.name) {
          case Raw(text) =>
            var v := c.convert(text);
            if v.Some? {
              value := v.value;
            }
          case NoCell =>
          case CellError =>
        }
        data := data[c.name := value];
      }
      assert columns[..|columns|] == columns;
    }

    /** The rows of one page, up to the limit. */
    method ExtractPage(field: Field<V>, rows: seq<Row>, ghost before: seq<map<string, V>>, items: seq<map<string, V>>)
        returns (more: seq<map<string, V>>)
      requires items == Limited(field.maxItems, before)
      ensures more == Limited(field.maxItems, before + RowsData(field.columns, rows))
    {
      more := items;
      assert before + RowsData(field.columns, []) == before;
      for i := 0 to |rows|
        invariant more == Limited(field.maxItems, before + RowsData(field.columns, rows[..i]))
      {
        ghost var done := RowsData(field.columns, rows[..i]);
        if Full(field.maxItems, more) {
          assert rows == rows[..i] + rows[i..];
          assert before + RowsData(field.columns, rows) == (before + done) + RowsData(field.columns, rows[i..]);
          FullStaysFull(field.maxItems, before + done, RowsData(field.columns, rows[i..]));
          return;
        }
        var data := ExtractRow(field.columns, rows[i]);
        RoomForOne(field.maxItems, before + done, data);
        more := more + [data];
        assert before + RowsData(field.columns, rows[..i + 1]) == (before + done) + [data];
      }
      assert rows[..|rows|] == rows;
    }

    /** `_extract_list`. The items are those of the crawl, in order, up to the limit; the
        pages read and buttons clicked do not depend on the limit. */
    method ExtractList(field: Field<V>, views: nat -> View)
        returns (items: seq<map<string, V>>, read: nat, clicks: nat, failed: bool)
      ensures var c := CrawlFrom(views, match field.maxPages case None => 1 case Some(n) => n, 0);
              && items == Limited(field.maxItems, RowsData(field.columns, c.rows))
              && read == c.read && clicks == c.clicks && failed == c.failed
    {
      hide Limited, RowsData, RowData, Full;
      assert Limited(field.maxItems, RowsData(field.columns, [])) == [] by { NothingYet(field); }
      var pageNum, maxPages := 0, MaxPages(field);
      items, read, clicks, failed := [], 0, 0, false;
      ghost var rows: seq<Row> := [];
      ghost var all := CrawlFrom(views, maxPages, 0);
      while pageNum < maxPages
        invariant items == Limited(field.maxItems, RowsData(field.columns, rows)) && !failed
        invariant rows + [] == rows
        invariant var c := CrawlFrom(views, maxPages, pageNum);
                  && all.rows == rows + c.rows && all.read == read + c.read
                  && all.clicks == clicks + c.clicks && all.failed == c.failed
        decreases maxPages - pageNum
      {
        read := read + 1;
        var view := views(pageNum);
        if view.rows.None? {
          failed := true;
          return;
        }
        if view.rows.value == [] {
          return;
        }
        items := ExtractPage(field, view.rows.value, RowsData(field.columns, rows), items);
        RowsConcat(field.columns, rows, view.rows.value);
        Associates(rows, view.rows.value, CrawlFrom(views, maxPages, pageNum + 1).rows);
        rows := rows + view.rows.value;
        if field.maxPages.Some? && pageNum < maxPages - 1 {
          match view.button
          case Clicked => clicks := clicks + 1;
          case ClickedThenFailed =>
            clicks := clicks + 1;
            return;
          case _ => return;
        }
        pageNum := pageNum + 1;
      }
    }
  }
}
