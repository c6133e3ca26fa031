/** The loops of pkg/export.go that fetch pages and write rows, against the plan of ExportPlan. */
module ExportCode {
  import opened Basics
  import opened ExportPlan

  type Item = string

  /** One SetRow of a body row: the sheet, counted from 1, and the row on it. Row 1 is the header. */
  datatype Cell = Cell(sheet: int, row: int, item: Item)

  /** What ListFunc is to return: the page-th slice of the data. */
  function PageOf(data: seq<Item>, page: int, size: int): seq<Item>
    requires page >= 1 && size >= 1
  {
    MulMono(0, page - 1, size);
    MulMono(page - 1, page, size);
    data[Least((page - 1) * size, |data|)..Least(page * size, |data|)]
  }

  /** The index of the first row on sheet k, counted from 1. */
  function First(o: Options, total: nat, k: int): int
    requires OptionsOk(o) && SheetTotal(o, total) >= 1
  {
    Upto(o, total, PagesUpto(o, total, k - 1))
  }

  /** The items from index lo up to hi stand on sheet k, from row 2 on and in the order of the data. */
  ghost predicate Placed(data: seq<Item>, cells: seq<Cell>, k: int, lo: int, hi: int)
  {
    0 <= lo <= hi <= |cells| && hi <= |data| &&
    forall i :: lo <= i < hi ==> cells[i] == Cell(k, i - lo + 2, data[i])
  }

  /** Sheet k has its rows. */
  ghost predicate OnSheet(o: Options, data: seq<Item>, cells: seq<Cell>, k: int)
    requires OptionsOk(o) && SheetTotal(o, |data|) >= 1
  {
    Placed(data, cells, k, First(o, |data|, k), First(o, |data|, k + 1))
  }

  lemma PlacedStays(data: seq<Item>, before: seq<Cell>, cells: seq<Cell>, k: int, lo: int, hi: int)
    requires Placed(data, before, k, lo, hi) && before <= cells
    ensures Placed(data, cells, k, lo, hi)
  {
    forall i | lo <= i < hi
      ensures cells[i] == Cell(k, i - lo + 2, data[i])
    {
      assert before[i] == Cell(k, i - lo + 2, data[i]);
    }
  }

  /** A page written below what the sheet has. */
  lemma PlacedMore(data: seq<Item>, before: seq<Cell>, cells: seq<Cell>, k: int, lo: int, list: seq<Item>, n: nat)
    requires Placed(data, before, k, lo, |before|) && n <= |list| && |cells| == |before| + n && cells[..|before|] == before
    requires |before| + n <= |data| && list[..n] == data[|before|..|before| + n]
    requires forall i :: 0 <= i < n ==> cells[|before| + i] == Cell(k, |before| - lo + 2 + i, list[i])
    ensures Placed(data, cells, k, lo, |cells|)
  {
    forall i | lo <= i < |cells|
      ensures cells[i] == Cell(k, i - lo + 2, data[i])
    {
      if i < |before| {
        assert cells[i] == before[i];
      } else {
        assert cells[|before| + (i - |before|)] == Cell(k, |before| - lo + 2 + (i - |before|), list[i - |before|]);
        assert list[..n][i - |before|] == data[|before|..|before| + n][i - |before|];
      }
    }
  }

  // ----- arithmetic of one page -----

  lemma PageStep(o: Options, total: nat, page: int)
    requires OptionsOk(o) && SheetTotal(o, total) >= 1 && 0 <= page < PageTotal(o, total)
    ensures
      var from, to := Least(page * o.pageSize, total), Least((page + 1) * o.pageSize, total);
      var n := Least(to - from, o.limitSize - Upto(o, total, page));
      && 0 <= from <= to
      && Upto(o, total, page) == from && Upto(o, total, page + 1) == from + n && 0 <= n <= to - from
      && (n < to - from ==> page + 1 == PageTotal(o, total))
  {
    SomethingToWrite(o, total);
    PagesCover(o, total);
    hide SheetTotal, Ceil;
    var ps := o.pageSize;
    MulMono(0, page, ps);
    MulMono(page, page + 1, ps);
    assert page * ps < Rows(o, total);
    if page + 1 < PageTotal(o, total) {
      assert (page + 1) * ps < Rows(o, total);
    }
  }

  /** The pages of sheet k follow those of the sheets before it. */
  lemma NextSheet(o: Options, total: nat, k: int, page: int, s: int)
    requires OptionsOk(o) && SheetTotal(o, total) >= 1 && k >= 1 && s >= 1
    requires page == PagesUpto(o, total, k - 1) + s - 1 && page <= PageTotal(o, total) && s - 1 <= MaxPage(o, total)
    requires s > MaxPage(o, total) || page == PageTotal(o, total)
    ensures page == PagesUpto(o, total, k)
  {
    SomethingToWrite(o, total);
    var m := MaxPage(o, total);
    hide MaxPage, SheetTotal, PageTotal;
    assert k * m == (k - 1) * m + m;
  }

  lemma NoMoreSheets(o: Options, total: nat, k: int, j: int)
    requires OptionsOk(o) && SheetTotal(o, total) >= 1 && 0 <= k <= j
    requires PagesUpto(o, total, k) == PageTotal(o, total)
    ensures PagesUpto(o, total, j) == PageTotal(o, total)
  {
    SomethingToWrite(o, total);
    MulMono(k, j, MaxPage(o, total));
  }

  // ----- one page more on a sheet -----

  /** Sheet k is being filled: so many pages and rows are written, and s is its next page. */
  ghost predicate FillingAt(o: Options, data: seq<Item>, k: int, s: int, page: int, cells: seq<Cell>, offset: int, limit: bool)
    requires OptionsOk(o) && SheetTotal(o, |data|) >= 1
  {
    && 1 <= s <= MaxPage(o, |data|) + 1
    && page == PagesUpto(o, |data|, k - 1) + s - 1 && 0 <= page <= PageTotal(o, |data|)
    && |cells| == Upto(o, |data|, page) <= Rows(o, |data|)
    && offset == 1 + |cells| - First(o, |data|, k)
    && (limit ==> page == PageTotal(o, |data|))
    && Placed(data, cells, k, First(o, |data|, k), |cells|)
  }

  lemma PageFits(o: Options, data: seq<Item>, k: int, s: int, page: int, cells: seq<Cell>, offset: int, limit: bool)
    requires OptionsOk(o) && SheetTotal(o, |data|) >= 1 && FillingAt(o, data, k, s, page, cells, offset, limit)
    ensures 0 <= page && |cells| <= o.limitSize
  {}

  /** The rows of a page that are written are the next rows of the data. */
  lemma PageSlice(o: Options, data: seq<Item>, page: int, n: int)
    requires OptionsOk(o) && SheetTotal(o, |data|) >= 1 && 0 <= page < PageTotal(o, |data|)
    requires n == Least(|PageOf(data, page + 1, o.pageSize)|, o.limitSize - Upto(o, |data|, page))
    ensures
      var from := Upto(o, |data|, page);
      && 0 <= from && 0 <= n && Upto(o, |data|, page + 1) == from + n <= |data|
      && PageOf(data, page + 1, o.pageSize)[..n] == data[from..from + n]
      && (n < |PageOf(data, page + 1, o.pageSize)| ==> page + 1 == PageTotal(o, |data|))
  {
    PageStep(o, |data|, page);
    hide SheetTotal, PageTotal, Ceil, Upto;
  }

  /** A page more, written in order from the next row on. */
  lemma FillingMore(o: Options, data: seq<Item>, k: int, s: int, page: int, before: seq<Cell>, offset: int,
                    cells: seq<Cell>, list: seq<Item>, limit: bool)
    requires OptionsOk(o) && SheetTotal(o, |data|) >= 1 && FillingAt(o, data, k, s, page, before, offset, false)
    requires s <= MaxPage(o, |data|) && page < PageTotal(o, |data|) && list == PageOf(data, page + 1, o.pageSize)
    requires
      var n := Least(|list|, o.limitSize - |before|);
      && |cells| == |before| + n && cells[..|before|] == before && limit == (n < |list|)
      && forall i :: 0 <= i < n ==> cells[|before| + i] == Cell(k, offset + 1 + i, list[i])
    ensures FillingAt(o, data, k, s + 1, page + 1, cells, offset + |cells| - |before|, limit)
    ensures before <= cells
  {
    var n := Least(|list|, o.limitSize - |before|);
    PageSlice(o, data, page, n);
    PagesCover(o, |data|);
    hide MaxPage, PagesUpto, SheetTotal, PageTotal, Ceil, Rows, First, PageOf, Least, Placed;
    PlacedMore(data, before, cells, k, First(o, |data|, k), list, n);
    UptoRows(o, |data|, page + 1);
  }

  lemma UptoRows(o: Options, total: nat, page: int)
    ensures Upto(o, total, page) <= Rows(o, total)
  {}

  /** The totals, by what they hold. */
  lemma BeforeMeans(o: Options, total: nat)
    requires OptionsOk(o)
    ensures
      var n := Least(total, o.limitSize);
      && (SheetTotal(o, total) - 1) * o.sheetSize < n <= SheetTotal(o, total) * o.sheetSize
      && (n > 0 ==> (PageTotal(o, total) - 1) * o.pageSize < n <= PageTotal(o, total) * o.pageSize)
      && (n == 0 ==> PageTotal(o, total) == 1)
      && Rows(o, total) == n
  {
    var n := Rows(o, total);
    CeilLeast(0, o.pageSize, 0);
    var c := Ceil(n, o.pageSize);
    hide Ceil;
    if n > 0 && c <= 0 {
      MulMono(c, 0, o.pageSize);
    }
    if n == 0 && c < 0 {
      MulMono(c, -1, o.pageSize);
    }
  }

  /** How many rows a sheet takes: whole pages, as many as let the sheets share all pages. */
  ghost predicate IsSheetRows(rows: int, o: Options, pages: int, sheets: int)
  {
    exists m: int :: rows == m * o.pageSize && (m - 1) * sheets < pages <= m * sheets
  }

  class Export {
    const o: Options
    var total: nat
    var page: int
    var pageTotal: int
    var sheetTotal: int
    var offset: int
    var count: int
    var limit: bool
    var made: int
    var cells: seq<Cell>
    var fetched: seq<int>

    constructor (options: Options)
      ensures o == NewOptions(options)
      ensures count == 0 && cells == [] && fetched == [] && made == 0
    {
      o := if options.sheetSize < options.pageSize then options.(sheetSize := options.pageSize) else options;
      total, page, pageTotal, sheetTotal, offset, count, limit := 0, 0, 0, 0, 0, 0, false;
      made, cells, fetched := 0, [], [];
    }

    method Before(total: nat)
      requires OptionsOk(o)
      modifies this`total, this`pageTotal, this`sheetTotal, this`page
      ensures this.total == total && page == 0
      ensures pageTotal == PageTotal(o, total) && sheetTotal == SheetTotal(o, total)
      ensures
        var n := Least(total, o.limitSize);
        && (sheetTotal - 1) * o.sheetSize < n <= sheetTotal * o.sheetSize
        && (n > 0 ==> (pageTotal - 1) * o.pageSize < n <= pageTotal * o.pageSize)
        && (n == 0 ==> pageTotal == 1)
    {
      BeforeMeans(o, total);
      this.total := total;
      pageTotal := Ceil(total, o.pageSize);
      if total >= o.limitSize {
        pageTotal := Ceil(o.limitSize, o.pageSize);
      }
      if pageTotal == 0 {
        pageTotal := 1;
      }
      sheetTotal := Ceil(total, o.sheetSize);
      if total >= o.limitSize {
        sheetTotal := Ceil(o.limitSize, o.sheetSize);
      }
      page := 0;
    }

    /** exportList: rows until the list or the limit is reached; the limit is noticed by the row after it. */
    method ExportList(sheet: int, list: seq<Item>)
      requires count == |cells| <= o.limitSize
      modifies this`limit, this`offset, this`count, this`cells
      ensures count == |cells|
      ensures
        var n := Least(|list|, o.limitSize - old(count));
        && |cells| == |old(cells)| + n && cells[..|old(cells)|] == old(cells)
        && offset == old(offset) + n && limit == (old(limit) || n < |list|)
        && forall i :: 0 <= i < n ==> cells[|old(cells)| + i] == Cell(sheet, old(offset) + 1 + i, list[i])
    {
      var k := 0;
      while k < |list|
        invariant 0 <= k <= |list| && k <= o.limitSize - old(count) && limit == old(limit)
        invariant count == |cells| == |old(cells)| + k && cells[..|old(cells)|] == old(cells)
        invariant offset == old(offset) + k
        invariant forall i :: 0 <= i < k ==> cells[|old(cells)| + i] == Cell(sheet, old(offset) + 1 + i, list[i])
      {
        if count >= o.limitSize {
          limit := true;
          return;
        }
        offset := offset + 1;
        cells := cells + [Cell(sheet, offset, list[k])];
        count := count + 1;
        k := k + 1;
      }
    }

    /** What the loop over pages keeps while it fills sheet k; s is the next page of the sheet. */
    ghost predicate Filling(data: seq<Item>, k: int, s: int)
      requires OptionsOk(o) && SheetTotal(o, |data|) >= 1
      reads this
    {
      count == |cells| && FillingAt(o, data, k, s, page, cells, offset, limit)
    }

    /** One page: fetched, and written below what the sheet has. */
    method OnePage(data: seq<Item>, k: int, ghost s: int)
      requires OptionsOk(o) && SheetTotal(o, |data|) >= 1 && pageTotal == PageTotal(o, |data|)
      requires Filling(data, k, s) && s <= MaxPage(o, |data|) && page < pageTotal && !limit
      requires fetched == seq(page, i => i + 1)
      modifies this`page, this`fetched, this`limit, this`offset, this`count, this`cells
      ensures Filling(data, k, s + 1) && page == old(page) + 1
      ensures fetched == seq(page, i => i + 1)
      ensures old(cells) <= cells
    {
      hide FillingAt, MaxPage, PageTotal, SheetTotal, Ceil, PageOf;
      ghost var before := cells;
      PageFits(o, data, k, s, page, cells, offset, limit);
      page := page + 1;
      fetched := fetched + [page];
      var list := PageOf(data, page, o.pageSize);
      ExportList(k, list);
      FillingMore(o, data, k, s, old(page), before, old(offset), cells, list, limit);
    }

    /** The pages of one sheet. */
    method OneSheet(data: seq<Item>, k: int)
      requires OptionsOk(o) && 1 <= k <= SheetTotal(o, |data|)
      requires pageTotal == PageTotal(o, |data|) && sheetTotal == SheetTotal(o, |data|)
      requires page == PagesUpto(o, |data|, k - 1) && count == |cells| == First(o, |data|, k) && !limit
      requires fetched == seq(page, i => i + 1)
      modifies this`page, this`fetched, this`limit, this`offset, this`count, this`cells, this`made
      ensures page == PagesUpto(o, |data|, k) && count == |cells| == First(o, |data|, k + 1)
      ensures limit ==> page == pageTotal
      ensures fetched == seq(page, i => i + 1) && made == old(made) + 1
      ensures old(cells) <= cells && OnSheet(o, data, cells, k)
    {
      SomethingToWrite(o, |data|);
      MulMono(0, k - 1, MaxPage(o, |data|));
      PagesCover(o, |data|);
      offset := 1;
      made := made + 1;
      var maxPage := Ceil(pageTotal, sheetTotal);
      var s := 1;
      assert Filling(data, k, s);
      hide Filling, First, Upto, PagesUpto, MaxPage, PageTotal, SheetTotal;
      while s <= maxPage && page < pageTotal && !limit
        invariant 1 <= s <= maxPage + 1 && Filling(data, k, s)
        invariant fetched == seq(page, i => i + 1) && old(cells) <= cells
        modifies this`page, this`fetched, this`limit, this`offset, this`count, this`cells
      {
        OnePage(data, k, s);
        s := s + 1;
      }
      SheetFilled(data, k, s);
    }

    lemma SheetFilled(data: seq<Item>, k: int, s: int)
      requires OptionsOk(o) && 1 <= k <= SheetTotal(o, |data|)
      requires Filling(data, k, s) && (s > MaxPage(o, |data|) || page == PageTotal(o, |data|) || limit)
      ensures page == PagesUpto(o, |data|, k) && count == |cells| == First(o, |data|, k + 1)
      ensures OnSheet(o, data, cells, k) && (limit ==> page == PageTotal(o, |data|))
    {
      NextSheet(o, |data|, k, page, s);
    }

    /**
     The two loops of processor. The rows written are the first total or limitSize rows of the data,
     each once and in order; sheet by sheet they stand in rows 2, 3, ...; and the pages were fetched
     once each, in order. A sheet that is not made would have had no rows.
     */
    method Processor(data: seq<Item>)
      requires OptionsOk(o) && total == |data| && page == 0 && count == 0 && cells == [] && fetched == [] && made == 0
      requires pageTotal == PageTotal(o, total) && sheetTotal == SheetTotal(o, total)
      modifies this
      ensures SheetTotal(o, |data|) < 1 ==> cells == [] && fetched == [] && made == 0 && Rows(o, |data|) <= 0
      ensures SheetTotal(o, |data|) >= 1 ==>
                && |cells| == Rows(o, |data|)
                && (forall k :: 1 <= k <= SheetTotal(o, |data|) ==> OnSheet(o, data, cells, k))
                && PageTotal(o, |data|) >= 1 && fetched == seq(PageTotal(o, |data|), i => i + 1)
                && 1 <= made <= SheetTotal(o, |data|)
                && (forall k :: made < k <= SheetTotal(o, |data|) ==> RowsOn(o, |data|, k) == 0)
      ensures count == |cells| && pageTotal == old(pageTotal) && sheetTotal == old(sheetTotal)
    {
      limit := false;
      if sheetTotal >= 1 {
        Sheets(data);
      } else {
        NothingToWrite(o, |data|);
      }
    }

    method Sheets(data: seq<Item>)
      requires OptionsOk(o) && page == 0 && count == 0 && cells == [] && fetched == [] && made == 0 && !limit
      requires SheetTotal(o, |data|) >= 1 && pageTotal == PageTotal(o, |data|) && sheetTotal == SheetTotal(o, |data|)
      modifies this`page, this`fetched, this`limit, this`offset, this`count, this`cells, this`made
      ensures |cells| == Rows(o, |data|) && count == |cells|
      ensures forall k :: 1 <= k <= SheetTotal(o, |data|) ==> OnSheet(o, data, cells, k)
      ensures PageTotal(o, |data|) >= 1 && fetched == seq(PageTotal(o, |data|), i => i + 1)
      ensures 1 <= made <= SheetTotal(o, |data|)
      ensures forall k :: made < k <= SheetTotal(o, |data|) ==> RowsOn(o, |data|, k) == 0
    {
      SomethingToWrite(o, |data|);
      StartsEmpty(o, |data|);
      hide OnSheet, First, PagesUpto, PageTotal, SheetTotal, RowsOn, Rows, Upto;
      var currentSheet := 1;
      while currentSheet <= sheetTotal && !limit
        invariant 1 <= currentSheet <= sheetTotal + 1 && (limit ==> 1 < currentSheet)
        invariant page == PagesUpto(o, |data|, currentSheet - 1) && count == |cells| == First(o, |data|, currentSheet)
        invariant limit ==> page == pageTotal
        invariant forall k :: 1 <= k < currentSheet ==> OnSheet(o, data, cells, k)
        invariant page >= 0 && fetched == seq(page, i => i + 1) && made == currentSheet - 1
      {
        ghost var before := cells;
        OneSheet(data, currentSheet);
        forall k | 1 <= k < currentSheet
          ensures OnSheet(o, data, cells, k)
        {
          OnSheetStays(o, data, before, cells, k);
        }
        PagesNotNegative(o, |data|, currentSheet);
        currentSheet := currentSheet + 1;
      }
      AllWritten(data, currentSheet - 1);
    }

    lemma AllWritten(data: seq<Item>, done: int)
      requires OptionsOk(o) && 1 <= done <= SheetTotal(o, |data|)
      requires page == PagesUpto(o, |data|, done) && count == |cells| == First(o, |data|, done + 1)
      requires done == SheetTotal(o, |data|) || page == PageTotal(o, |data|)
      requires forall k :: 1 <= k <= done ==> OnSheet(o, data, cells, k)
      ensures page == PageTotal(o, |data|) && |cells| == Rows(o, |data|)
      ensures forall k :: 1 <= k <= SheetTotal(o, |data|) ==> OnSheet(o, data, cells, k)
      ensures forall k :: done < k <= SheetTotal(o, |data|) ==> RowsOn(o, |data|, k) == 0
    {
      SheetsCover(o, |data|);
      PagesCover(o, |data|);
      hide PagesUpto, SheetTotal, PageTotal, Upto;
      forall k | done < k <= SheetTotal(o, |data|)
        ensures RowsOn(o, |data|, k) == 0 && OnSheet(o, data, cells, k)
      {
        NoMoreSheets(o, |data|, done, k - 1);
        NoMoreSheets(o, |data|, done, k);
      }
    }
  }

  lemma OnSheetStays(o: Options, data: seq<Item>, before: seq<Cell>, cells: seq<Cell>, k: int)
    requires OptionsOk(o) && SheetTotal(o, |data|) >= 1 && OnSheet(o, data, before, k) && before <= cells
    ensures OnSheet(o, data, cells, k)
  {
    PlacedStays(data, before, cells, k, First(o, |data|, k), First(o, |data|, k + 1));
  }

  lemma StartsEmpty(o: Options, total: nat)
    requires OptionsOk(o) && SheetTotal(o, total) >= 1
    ensures PagesUpto(o, total, 0) == 0 && First(o, total, 1) == 0
  {
    SomethingToWrite(o, total);
    assert 0 * MaxPage(o, total) == 0 && 0 * o.pageSize == 0;
  }

  lemma PagesNotNegative(o: Options, total: nat, k: int)
    requires OptionsOk(o) && SheetTotal(o, total) >= 1 && k >= 0
    ensures PagesUpto(o, total, k) >= 0
  {
    SomethingToWrite(o, total);
    MulMono(0, k, MaxPage(o, total));
  }

  lemma NothingToWrite(o: Options, total: nat)
    requires OptionsOk(o) && SheetTotal(o, total) < 1
    ensures Rows(o, total) <= 0
  {
    MulMono(SheetTotal(o, total), 0, o.sheetSize);
    assert Rows(o, total) <= SheetTotal(o, total) * o.sheetSize <= 0 * o.sheetSize == 0;
  }

  /** Every one of the rows stands on exactly the sheet whose range it is in: the items in order are the data. */
  lemma {:induction false} RowsInOrder(o: Options, data: seq<Item>, cells: seq<Cell>, k: int)
    requires OptionsOk(o) && SheetTotal(o, |data|) >= 1 && 0 <= k
    requires forall j :: 1 <= j <= k ==> OnSheet(o, data, cells, j)
    ensures forall i :: 0 <= i < First(o, |data|, k + 1) ==> i < |cells| && i < |data| && cells[i].item == data[i]
  {
    if k == 0 {
      StartsEmpty(o, |data|);
    } else {
      RowsInOrder(o, data, cells, k - 1);
      hide First, SheetTotal, OptionsOk;
      assert OnSheet(o, data, cells, k);
      forall i | 0 <= i < First(o, |data|, k + 1)
        ensures i < |cells| && i < |data| && cells[i].item == data[i]
      {
        var lo := First(o, |data|, k);
        if i >= lo {
          assert Placed(data, cells, k, lo, First(o, |data|, k + 1));
        }
      }
    }
  }

  /** Row i of the data stands on the sheet that its number gives, below the rows before it on that sheet. */
  lemma CellAt(o: Options, data: seq<Item>, cells: seq<Cell>, i: int, per: int)
    requires OptionsOk(o) && SheetTotal(o, |data|) >= 1 && 0 <= i < Rows(o, |data|)
    requires per == MaxPage(o, |data|) * o.pageSize
    requires forall k :: 1 <= k <= SheetTotal(o, |data|) ==> OnSheet(o, data, cells, k)
    ensures per > 0 && i < |cells| && i < |data| && cells[i] == Cell(i / per + 1, i % per + 2, data[i])
  {
    SomethingToWrite(o, |data|);
    PagesCover(o, |data|);
    var m, ps, pages := MaxPage(o, |data|), o.pageSize, PageTotal(o, |data|);
    MulMono(1, m, ps);
    var k := i / per;
    Divided(i, per);
    FirstIs(o, |data|, i, k);
    assert OnSheet(o, data, cells, k + 1);
    hide OptionsOk, SheetTotal, MaxPage, PageTotal, Rows, First;
    assert i - k * per == i % per;
  }

  lemma Divided(i: int, per: int)
    requires i >= 0 && per > 0
    ensures i / per >= 0 && i / per * per <= i < (i / per + 1) * per && i - i / per * per == i % per
  {
    assert i == i / per * per + i % per;
  }

  /** Sheet k + 1 begins with row k * per and holds row i. */
  lemma FirstIs(o: Options, total: nat, i: int, k: int)
    requires OptionsOk(o) && SheetTotal(o, total) >= 1 && 0 <= i < Rows(o, total) && k >= 0
    requires
      var per := MaxPage(o, total) * o.pageSize;
      k * per <= i < (k + 1) * per
    ensures 1 <= k + 1 <= SheetTotal(o, total)
    ensures First(o, total, k + 1) == k * (MaxPage(o, total) * o.pageSize) <= i < First(o, total, k + 2)
  {
    SomethingToWrite(o, total);
    PagesCover(o, total);
    FirstByPages(MaxPage(o, total), o.pageSize, PageTotal(o, total), SheetTotal(o, total), Rows(o, total), i, k);
    hide MaxPage, PageTotal, SheetTotal, Rows;
  }

  lemma FirstByPages(m: int, ps: int, pages: int, sheets: int, rows: int, i: int, k: int)
    requires m >= 1 && ps >= 1 && pages <= m * sheets && rows <= pages * ps && 0 <= i < rows && k >= 0
    requires k * (m * ps) <= i < (k + 1) * (m * ps)
    ensures k < sheets
    ensures Least(Least(k * m, pages) * ps, rows) == k * (m * ps)
    ensures i < Least(Least((k + 1) * m, pages) * ps, rows)
  {
    Reassociated(k, m, ps);
    Reassociated(k + 1, m, ps);
    var before, after := k * m, (k + 1) * m;
    if before >= pages {
      MulMono(pages, before, ps);
    }
    if k >= sheets {
      Turned(sheets, k, m);
    }
  }

  lemma Reassociated(k: int, m: int, ps: int)
    ensures k * (m * ps) == k * m * ps
  {}

  lemma Turned(x: int, y: int, m: int)
    requires x <= y && m >= 0
    ensures m * x <= y * m
  {
    MulMono(x, y, m);
  }

  /** A fresh export, from options to rows: the first total or limitSize rows, each once and in order. */
  method ExportAll(options: Options, data: seq<Item>) returns (e: Export)
    requires options.pageSize >= 1 && options.limitSize < 0x8000_0000
    ensures fresh(e) && OptionsOk(e.o)
    ensures
      var n := if Rows(e.o, |data|) < 0 then 0 else Rows(e.o, |data|);
      |e.cells| == n <= |data| && forall i :: 0 <= i < n ==> e.cells[i].item == data[i]
    ensures Rows(e.o, |data|) > 0 ==> e.fetched == seq(PageTotal(e.o, |data|), i => i + 1)
    ensures e.o.pageSize == options.pageSize && e.o.limitSize == options.limitSize
    ensures e.o.sheetSize == if options.sheetSize < options.pageSize then options.pageSize else options.sheetSize
    ensures |e.cells| == if options.limitSize < 0 then 0 else Least(|data|, options.limitSize)
    ensures e.cells != [] ==>
              && e.pageTotal >= 1 && e.fetched == seq(e.pageTotal, i => i + 1)
              && (e.pageTotal - 1) * options.pageSize < |e.cells| <= e.pageTotal * options.pageSize
              && (e.sheetTotal - 1) * e.o.sheetSize < |e.cells| <= e.sheetTotal * e.o.sheetSize
              && exists per: int ::
                   && per > 0 && IsSheetRows(per, e.o, e.pageTotal, e.sheetTotal)
                   && forall i :: 0 <= i < |e.cells| ==> e.cells[i] == Cell(i / per + 1, i % per + 2, data[i])
  {
    BeforeMeans(NewOptions(options), |data|);
    e := new Export(options);
    e.Before(|data|);
    e.Processor(data);
    if SheetTotal(e.o, |data|) >= 1 {
      RowsInOrder(e.o, data, e.cells, SheetTotal(e.o, |data|));
      SheetsCover(e.o, |data|);
      PagesCover(e.o, |data|);
      InPlace(e.o, data, e.cells);
    } else {
      NothingToWrite(e.o, |data|);
    }
  }

  lemma InPlace(o: Options, data: seq<Item>, cells: seq<Cell>)
    requires OptionsOk(o) && SheetTotal(o, |data|) >= 1 && |cells| == Rows(o, |data|)
    requires forall k :: 1 <= k <= SheetTotal(o, |data|) ==> OnSheet(o, data, cells, k)
    ensures |cells| <= |data|
    ensures exists per: int ::
              && per > 0 && IsSheetRows(per, o, PageTotal(o, |data|), SheetTotal(o, |data|))
              && forall i :: 0 <= i < |cells| ==> cells[i] == Cell(i / per + 1, i % per + 2, data[i])
  {
    SomethingToWrite(o, |data|);
    var m := MaxPage(o, |data|);
    var per := m * o.pageSize;
    MulMono(1, m, o.pageSize);
    assert IsSheetRows(per, o, PageTotal(o, |data|), SheetTotal(o, |data|));
    hide OnSheet, IsSheetRows, MaxPage, PageTotal, SheetTotal;
    forall i | 0 <= i < |cells|
      ensures cells[i] == Cell(i / per + 1, i % per + 2, data[i])
    {
      CellAt(o, data, cells, i, per);
    }
  }
}
