/** The paging of pkg/export.go: which rows go to which sheet. Quotients are rounded up as integers. */
module ExportPlan {
  import opened Basics

  /** limitSize is at most 2^31 - 1, so that its conversion to int32 keeps it. */
  datatype Options = Options(pageSize: int, sheetSize: int, limitSize: int)

  predicate OptionsOk(o: Options)
  {
    1 <= o.pageSize <= o.sheetSize && o.limitSize < 0x8000_0000
  }

  /** NewExport: a sheet has room for a page. */
  function NewOptions(o: Options): (r: Options)
    ensures o.pageSize >= 1 && o.limitSize < 0x8000_0000 ==> OptionsOk(r)
  {
    if o.sheetSize < o.pageSize then o.(sheetSize := o.pageSize) else o
  }

  /** a / b rounded up. */
  function Ceil(a: int, b: int): (c: int)
    requires b > 0
    ensures (c - 1) * b < a <= c * b
  {
    if a <= 0 then
      CeilNegative(-a, b);
      -((-a) / b)
    else
      CeilPositive(a, b);
      (a + b - 1) / b
  }

  lemma CeilNegative(a: int, b: int)
    requires a >= 0 && b > 0
    ensures (-(a / b) - 1) * b < -a <= -(a / b) * b
  {
    assert a == a / b * b + a % b;
  }

  lemma CeilPositive(a: int, b: int)
    requires a > 0 && b > 0
    ensures ((a + b - 1) / b - 1) * b < a <= (a + b - 1) / b * b
  {
    var s := a + b - 1;
    assert s == s / b * b + s % b;
    assert (s / b - 1) * b == s / b * b - b;
  }

  /** The least c with a <= c * b. */
  lemma CeilLeast(a: int, b: int, c: int)
    requires b > 0 && a <= c * b
    ensures Ceil(a, b) <= c
  {
    var d := Ceil(a, b);
    if d > c {
      assert (d - 1) * b >= c * b by { MulMono(c, d - 1, b); }
    }
  }

  lemma MulMono(x: int, y: int, b: int)
    requires x <= y && b >= 0
    ensures x * b <= y * b
  {}

  function Rows(o: Options, total: nat): int
  {
    if total >= o.limitSize then o.limitSize else total
  }

  function PageTotal(o: Options, total: nat): int
    requires OptionsOk(o)
  {
    var pages := Ceil(Rows(o, total), o.pageSize);
    if pages == 0 then 1 else pages
  }

  function SheetTotal(o: Options, total: nat): int
    requires OptionsOk(o)
  {
    Ceil(Rows(o, total), o.sheetSize)
  }

  /** How many pages a sheet gets at most. */
  function MaxPage(o: Options, total: nat): int
    requires OptionsOk(o) && SheetTotal(o, total) >= 1
  {
    Ceil(PageTotal(o, total), SheetTotal(o, total))
  }

  /** Rows written when the first p pages are. */
  function Upto(o: Options, total: nat, p: int): int
  {
    Least(p * o.pageSize, Rows(o, total))
  }

  /** Pages written when the first k sheets are. */
  function PagesUpto(o: Options, total: nat, k: int): int
    requires OptionsOk(o) && SheetTotal(o, total) >= 1
  {
    Least(k * MaxPage(o, total), PageTotal(o, total))
  }

  /** Rows on sheet k, counted from 1. */
  function RowsOn(o: Options, total: nat, k: int): int
    requires OptionsOk(o) && SheetTotal(o, total) >= 1
  {
    Upto(o, total, PagesUpto(o, total, k)) - Upto(o, total, PagesUpto(o, total, k - 1))
  }

  // ----- the plan covers the rows -----

  lemma SomethingToWrite(o: Options, total: nat)
    requires OptionsOk(o) && SheetTotal(o, total) >= 1
    ensures Rows(o, total) >= 1 && PageTotal(o, total) == Ceil(Rows(o, total), o.pageSize) >= 1
    ensures MaxPage(o, total) >= 1
  {
    if Rows(o, total) <= 0 {
      CeilLeast(Rows(o, total), o.sheetSize, 0);
    }
  }

  /** The pages hold all rows that are to be written; without the last page they do not. */
  lemma PagesCover(o: Options, total: nat)
    requires OptionsOk(o) && SheetTotal(o, total) >= 1
    ensures Upto(o, total, PageTotal(o, total)) == Rows(o, total)
    ensures forall p :: p < PageTotal(o, total) ==> p * o.pageSize < Rows(o, total)
  {
    SomethingToWrite(o, total);
    var pages := PageTotal(o, total);
    forall p | p < pages
      ensures p * o.pageSize < Rows(o, total)
    {
      MulMono(p, pages - 1, o.pageSize);
    }
  }

  /** The sheets take all pages. */
  lemma SheetsCover(o: Options, total: nat)
    requires OptionsOk(o) && SheetTotal(o, total) >= 1
    ensures PagesUpto(o, total, SheetTotal(o, total)) == PageTotal(o, total)
  {
    var s, m := SheetTotal(o, total), MaxPage(o, total);
    assert s * m == m * s;
  }

  // ----- how full the sheets are -----

  /** A sheet gets no more pages than it takes to fill it. */
  lemma MaxPageBound(o: Options, total: nat)
    requires OptionsOk(o) && SheetTotal(o, total) >= 1
    ensures MaxPage(o, total) <= Ceil(o.sheetSize, o.pageSize)
  {
    SomethingToWrite(o, total);
    var s, c := SheetTotal(o, total), Ceil(o.sheetSize, o.pageSize);
    assert Rows(o, total) <= s * o.sheetSize;
    assert s * o.sheetSize <= s * c * o.pageSize by {
      MulMono(o.sheetSize, c * o.pageSize, s);
      assert s * (c * o.pageSize) == s * c * o.pageSize;
    }
    CeilLeast(Rows(o, total), o.pageSize, s * c);
    assert s * c == c * s;
    CeilLeast(PageTotal(o, total), s, c);
  }

  lemma RowsOnAtMost(o: Options, total: nat, k: int)
    requires OptionsOk(o) && SheetTotal(o, total) >= 1 && k >= 1
    ensures 0 <= RowsOn(o, total, k) <= MaxPage(o, total) * o.pageSize
  {
    SomethingToWrite(o, total);
    hide MaxPage, PageTotal, SheetTotal, Rows;
    var m := MaxPage(o, total);
    assert k * m == (k - 1) * m + m;
    RowsBetween(PagesUpto(o, total, k - 1), PagesUpto(o, total, k), m, o.pageSize, Rows(o, total));
  }

  lemma RowsBetween(before: int, after: int, m: int, ps: int, rows: int)
    requires 0 <= after - before <= m && ps >= 1
    ensures 0 <= Least(after * ps, rows) - Least(before * ps, rows) <= m * ps
  {
    MulMono(before, after, ps);
    assert after * ps - before * ps == (after - before) * ps;
    MulMono(after - before, m, ps);
  }

  /** Every sheet holds fewer than sheetSize + pageSize rows, whatever the options. */
  lemma SheetBound(o: Options, total: nat, k: int)
    requires OptionsOk(o) && SheetTotal(o, total) >= 1 && k >= 1
    ensures RowsOn(o, total, k) < o.sheetSize + o.pageSize
  {
    MaxPageBound(o, total);
    RowsOnAtMost(o, total, k);
    hide Ceil, MaxPage, RowsOn;
    PagesInSheet(MaxPage(o, total), Ceil(o.sheetSize, o.pageSize), o.pageSize, o.sheetSize);
  }

  lemma PagesInSheet(m: int, c: int, ps: int, ss: int)
    requires m <= c && (c - 1) * ps < ss && ps >= 1
    ensures m * ps < ss + ps
  {
    MulMono(m, c, ps);
    assert (c - 1) * ps == c * ps - ps;
  }

  /** sheetSize is kept exactly when there is one sheet only, or a sheet's pages fit into it. */
  lemma SheetSizeKept(o: Options, total: nat)
    requires OptionsOk(o) && SheetTotal(o, total) >= 1
    ensures (forall k :: 1 <= k <= SheetTotal(o, total) ==> RowsOn(o, total, k) <= o.sheetSize)
            <==> SheetTotal(o, total) == 1 || MaxPage(o, total) * o.pageSize <= o.sheetSize
  {
    SomethingToWrite(o, total);
    var s, m := SheetTotal(o, total), MaxPage(o, total);
    forall k | 1 <= k <= s
      ensures RowsOn(o, total, k) <= m * o.pageSize
      ensures s == 1 ==> RowsOn(o, total, k) <= Rows(o, total) <= o.sheetSize
    {
      RowsOnAtMost(o, total, k);
      FirstSheet(o, total);
    }
    if s != 1 && m * o.pageSize > o.sheetSize {
      FirstSheet(o, total);
      MulMono(1, s - 1, o.sheetSize);
      assert RowsOn(o, total, 1) > o.sheetSize;
    }
  }

  lemma FirstSheet(o: Options, total: nat)
    requires OptionsOk(o) && SheetTotal(o, total) >= 1
    ensures RowsOn(o, total, 1) == Least(MaxPage(o, total) * o.pageSize, Rows(o, total))
  {
    SomethingToWrite(o, total);
    PagesCover(o, total);
    var m, p := MaxPage(o, total), PageTotal(o, total);
    assert 0 * m == 0 && 1 * m == m;
    assert 0 * o.pageSize == 0;
    if m > p {
      MulMono(p, m, o.pageSize);
    }
  }

  /** No sheet is empty exactly when the pages reach the last one. */
  lemma NoSheetEmpty(o: Options, total: nat)
    requires OptionsOk(o) && SheetTotal(o, total) >= 1
    ensures (forall k :: 1 <= k <= SheetTotal(o, total) ==> RowsOn(o, total, k) > 0)
            <==> (SheetTotal(o, total) - 1) * MaxPage(o, total) < PageTotal(o, total)
  {
    var s, m, p := SheetTotal(o, total), MaxPage(o, total), PageTotal(o, total);
    SomethingToWrite(o, total);
    if (s - 1) * m < p {
      forall k | 1 <= k <= s
        ensures RowsOn(o, total, k) > 0
      {
        MulMono(k - 1, s - 1, m);
        SheetHasRows(o, total, k);
      }
    } else {
      PagesCover(o, total);
      assert s * m == (s - 1) * m + m;
      assert PagesUpto(o, total, s) == PagesUpto(o, total, s - 1);
      assert RowsOn(o, total, s) == 0;
    }
  }

  lemma SheetHasRows(o: Options, total: nat, k: int)
    requires OptionsOk(o) && SheetTotal(o, total) >= 1 && k >= 1
    requires (k - 1) * MaxPage(o, total) < PageTotal(o, total)
    ensures RowsOn(o, total, k) > 0
  {
    SomethingToWrite(o, total);
    PagesCover(o, total);
    hide MaxPage, PageTotal, SheetTotal, Rows;
    var m := MaxPage(o, total);
    assert k * m == (k - 1) * m + m;
    MoreRows(PagesUpto(o, total, k - 1), PagesUpto(o, total, k), o.pageSize, Rows(o, total));
  }

  lemma MoreRows(before: int, after: int, ps: int, rows: int)
    requires before < after && before * ps < rows && ps >= 1
    ensures Least(after * ps, rows) > Least(before * ps, rows)
  {
    MulMono(before + 1, after, ps);
    assert (before + 1) * ps == before * ps + ps;
  }

  /** When pages divide sheets, no sheet holds more than sheetSize rows and none is empty. */
  lemma DividingSizes(o: Options, total: nat, k: int)
    requires OptionsOk(o) && SheetTotal(o, total) >= 1 && 1 <= k <= SheetTotal(o, total)
    requires o.sheetSize % o.pageSize == 0
    ensures 0 < RowsOn(o, total, k) <= o.sheetSize
  {
    SomethingToWrite(o, total);
    MaxPageDivides(o, total);
    RowsOnAtMost(o, total, k);
    var s, m := SheetTotal(o, total), MaxPage(o, total);
    LastSheetReached(s, m, o.pageSize, o.sheetSize, Rows(o, total), PageTotal(o, total));
    hide SheetTotal, MaxPage, PageTotal, RowsOn;
    MulMono(k - 1, s - 1, m);
    SheetHasRows(o, total, k);
  }

  lemma MaxPageDivides(o: Options, total: nat)
    requires OptionsOk(o) && SheetTotal(o, total) >= 1 && o.sheetSize % o.pageSize == 0
    ensures MaxPage(o, total) * o.pageSize <= o.sheetSize
  {
    MaxPageBound(o, total);
    hide MaxPage, SheetTotal;
    var q := o.sheetSize / o.pageSize;
    assert o.sheetSize == q * o.pageSize;
    CeilLeast(o.sheetSize, o.pageSize, q);
    MulMono(MaxPage(o, total), q, o.pageSize);
  }

  lemma LastSheetReached(s: int, m: int, ps: int, ss: int, rows: int, pages: int)
    requires s >= 1 && ps >= 1 && m * ps <= ss && (s - 1) * ss < rows <= pages * ps
    ensures (s - 1) * m < pages
  {
    MulMono(m * ps, ss, s - 1);
    assert (m * ps) * (s - 1) == (s - 1) * m * ps;
    assert ss * (s - 1) == (s - 1) * ss;
    if (s - 1) * m >= pages {
      MulMono(pages, (s - 1) * m, ps);
    }
  }

  /** 12 rows in pages of 3 and sheets of 4: the first sheet holds 6 rows, the third none. */
  lemma SizesThatDoNotDivide()
    ensures
      var o := Options(3, 4, 1000);
      && OptionsOk(o) && SheetTotal(o, 12) == 3
      && RowsOn(o, 12, 1) == 6 && RowsOn(o, 12, 3) == 0
  {}
}
