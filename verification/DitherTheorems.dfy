/** How far dithering can stray: bounds on errors and values, and the balance of ink. */
module DitherTheorems {
  import opened Bits
  import opened Dither

  /** Eight-bit grays and a threshold strictly between black and past white. */
  predicate Photographic(page: Page) {
    page.Valid() && 1 <= page.threshold <= 255 && forall i :: 0 <= i < |page.gray| ==> 0 <= page.gray[i] <= 255
  }

  predicate ErrorFits(page: Page, e: real) {
    page.threshold as real - 255.0 <= e < page.threshold as real
  }

  predicate ValueFits(page: Page, v: real) {
    page.threshold as real - 255.0 <= v < 255.0 + page.threshold as real
  }

  lemma GrayFits(page: Page, y: nat, x: nat)
    requires Photographic(page) && y < page.height && x < page.width
    ensures 0.0 <= page.Gray(y, x) <= 255.0
  {
    InsidePage(y, x, page.width, page.height);
  }

  /** No error reaches the threshold or falls below it by 255, and no pixel ever holds a value
      outside the range that leaves. */
  lemma ErrorsStayBounded(page: Page, y: nat, x: nat)
    requires page.Valid() && 1 <= page.threshold <= 255 && forall i :: 0 <= i < |page.gray| ==> 0 <= page.gray[i] <= 255
    requires y < page.height && x < page.width
    ensures var t := page.threshold as real;
      && t - 255.0 <= page.Error(y, x) < t
      && t - 255.0 <= page.Value(y, x) < 255.0 + t
      && t - 255.0 <= page.Above(y, x) < 255.0 + t
  {
    hide Page.Error, Page.Value, Page.Above;
    ErrorsFit(page, y, x);
  }

  lemma {:induction false} ErrorsFit(page: Page, y: nat, x: nat)
    requires Photographic(page) && y < page.height && x < page.width
    ensures ErrorFits(page, page.Error(y, x)) && ValueFits(page, page.Value(y, x)) && ValueFits(page, page.Above(y, x))
    decreases y, x
  {
    hide Page.Error, Page.Value, Page.Above, Page.Gray, Page.IsInk;
    if x > 0 { ErrorsFit(page, y, x - 1); }
    if y > 0 {
      ErrorsFit(page, y - 1, x);
      if x > 0 { ErrorsFit(page, y - 1, x - 1); }
      if x + 1 < page.width { ErrorsFit(page, y - 1, x + 1); }
    }
    GrayFits(page, y, x);
    Recurrence(page, y, x);
    var left := if x > 0 then page.Error(y, x - 1) else 0.0;
    var upRight := if y > 0 && x + 1 < page.width then page.Error(y - 1, x + 1) else 0.0;
    var up := if y > 0 then page.Error(y - 1, x) else 0.0;
    var upLeft := if y > 0 && x > 0 then page.Error(y - 1, x - 1) else 0.0;
    SharesFit(page.threshold as real, page.Gray(y, x), left, upRight, up, upLeft);
  }

  /** The weights of the errors that meet in one pixel add up to one. */
  lemma SharesFit(t: real, gray: real, left: real, upRight: real, up: real, upLeft: real)
    requires 1.0 <= t <= 255.0 && 0.0 <= gray <= 255.0
    requires t - 255.0 <= left < t && t - 255.0 <= upRight < t && t - 255.0 <= up < t && t - 255.0 <= upLeft < t
    ensures
      var above := gray + (upRight * 3.0 / 16.0 + up * 5.0 / 16.0 + upLeft * 1.0 / 16.0);
      t - 255.0 <= above < 255.0 + t && t - 255.0 <= above + left * 7.0 / 16.0 < 255.0 + t
  {
  }

  /** The same for every value a pixel passes through while the row above it is dithered. */
  lemma PartialValuesStayBounded(page: Page, y: nat, x: nat, done: nat)
    requires page.Valid() && 1 <= page.threshold <= 255 && forall i :: 0 <= i < |page.gray| ==> 0 <= page.gray[i] <= 255
    requires 0 < y < page.height && x < page.width && done <= page.width
    ensures page.threshold as real - 255.0 <= page.Partly(y, x, done) < 255.0 + page.threshold as real
  {
    GrayFits(page, y, x);
    ErrorsStayBounded(page, y - 1, x);
    if x > 0 { ErrorsStayBounded(page, y - 1, x - 1); }
    if x + 1 < page.width { ErrorsStayBounded(page, y - 1, x + 1); }
  }

  /** A black and white page is printed exactly as it is: nothing is diffused. */
  lemma {:induction false} BlackAndWhiteIsExact(page: Page, y: nat, x: nat)
    requires page.Valid() && 1 <= page.threshold <= 255
    requires forall i :: 0 <= i < |page.gray| ==> page.gray[i] == 0 || page.gray[i] == 255
    requires y < page.height && x < page.width
    ensures page.Error(y, x) == 0.0 && page.Value(y, x) == page.Gray(y, x)
    ensures 0 <= y * page.width + x < |page.gray| && (page.Dot(y, x) <==> page.gray[y * page.width + x] == 0)
    decreases y, x
  {
    InsidePage(y, x, page.width, page.height);
    Recurrence(page, y, x);
    if x > 0 { BlackAndWhiteIsExact(page, y, x - 1); }
    if y > 0 {
      BlackAndWhiteIsExact(page, y - 1, x);
      if x > 0 { BlackAndWhiteIsExact(page, y - 1, x - 1); }
      if x + 1 < page.width { BlackAndWhiteIsExact(page, y - 1, x + 1); }
    }
  }

  // ---- the balance of ink ----------------------------------------------------------------

  /** The share of a pixel's error whose target lies outside the page. */
  function Lost(page: Page, y: nat, x: nat): real {
    (if x + 1 < page.width then 0.0 else 7.0 / 16.0)
    + (if y + 1 < page.height
       then (if x > 0 then 0.0 else 3.0 / 16.0) + (if x + 1 < page.width then 0.0 else 1.0 / 16.0)
       else 9.0 / 16.0)
  }

  // Sums over the first n pixels of a row.

  function GraySum(page: Page, y: nat, n: nat): real
    requires page.Valid() && y < page.height && n <= page.width
  {
    if n == 0 then 0.0 else GraySum(page, y, n - 1) + page.Gray(y, n - 1)
  }

  function ErrorSum(page: Page, y: nat, n: nat): real
    requires page.Valid() && y < page.height && n <= page.width
  {
    if n == 0 then 0.0 else ErrorSum(page, y, n - 1) + page.Error(y, n - 1)
  }

  function LostSum(page: Page, y: nat, n: nat): real
    requires page.Valid() && y < page.height && n <= page.width
  {
    if n == 0 then 0.0 else LostSum(page, y, n - 1) + Lost(page, y, n - 1) * page.Error(y, n - 1)
  }

  function WhiteIn(page: Page, y: nat, n: nat): nat
    requires page.Valid() && y < page.height && n <= page.width
  {
    if n == 0 then 0 else WhiteIn(page, y, n - 1) + if page.IsInk(y, n - 1) then 0 else 1
  }

  /** The dots without ink among the first n of a row of bytes. */
  function BlankDots(row: Row, n: nat): nat
    requires n <= 8 * |row|
  {
    if n == 0 then 0 else BlankDots(row, n - 1) + if Ink(row, n - 1) then 0 else 1
  }

  /** What counts as white is what the printed row leaves blank. */
  lemma WhiteIsBlank(page: Page, y: nat, n: nat)
    requires page.Valid() && y < page.height && n <= page.width
    ensures n <= 8 * |page.DitheredRow(y)| && WhiteIn(page, y, n) == BlankDots(page.DitheredRow(y), n)
  {
    WhiteMatches(page, y, n, page.DitheredRow(y));
  }

  lemma {:induction false} WhiteMatches(page: Page, y: nat, n: nat, row: Row)
    requires page.Valid() && y < page.height && n <= page.width && page.width <= 8 * |row|
    requires forall x :: 0 <= x < 8 * |row| ==> (Ink(row, x) <==> page.Dot(y, x))
    ensures WhiteIn(page, y, n) == BlankDots(row, n)
    decreases n
  {
    hide Ink, Page.IsInk;
    if n > 0 {
      WhiteMatches(page, y, n - 1, row);
      assert Ink(row, n - 1) <==> page.Dot(y, n - 1);
    }
  }

  // Sums over the first n rows of the page.

  function TotalGray(page: Page, n: nat): real
    requires page.Valid() && n <= page.height
  {
    if n == 0 then 0.0 else TotalGray(page, n - 1) + GraySum(page, n - 1, page.width)
  }

  function TotalLost(page: Page, n: nat): real
    requires page.Valid() && n <= page.height
  {
    if n == 0 then 0.0 else TotalLost(page, n - 1) + LostSum(page, n - 1, page.width)
  }

  function TotalWhite(page: Page, n: nat): nat
    requires page.Valid() && n <= page.height
  {
    if n == 0 then 0 else TotalWhite(page, n - 1) + WhiteIn(page, n - 1, page.width)
  }

  /** What the first n pixels of a row have received from the row above it. */
  function FromAbove(page: Page, y: nat, n: nat): real
    requires page.Valid() && y < page.height && n <= page.width
  {
    if y == 0 || n == 0 then 0.0
    else 3.0 / 16.0 * (ErrorSum(page, y - 1, if n < page.width then n + 1 else n) - page.Error(y - 1, 0))
         + 5.0 / 16.0 * ErrorSum(page, y - 1, n)
         + 1.0 / 16.0 * ErrorSum(page, y - 1, n - 1)
  }

  lemma AboveStep(page: Page, y: nat, n: nat)
    requires page.Valid() && 0 < y < page.height && 0 < n <= page.width
    ensures FromAbove(page, y, n) - FromAbove(page, y, n - 1) == page.Above(y, n - 1) - page.Gray(y, n - 1)
  {
    Recurrence(page, y, n - 1);
    assert ErrorSum(page, y - 1, n) == ErrorSum(page, y - 1, n - 1) + page.Error(y - 1, n - 1);
    if n > 1 { assert ErrorSum(page, y - 1, n - 1) == ErrorSum(page, y - 1, n - 2) + page.Error(y - 1, n - 2); }
    if n < page.width { assert ErrorSum(page, y - 1, n + 1) == ErrorSum(page, y - 1, n) + page.Error(y - 1, n); }
  }

  /** The first n pixels of a row: what came in is what was printed white and what was passed on. */
  lemma {:induction false} RowBalance(page: Page, y: nat, n: nat)
    requires page.Valid() && y < page.height && n <= page.width
    ensures GraySum(page, y, n) + FromAbove(page, y, n) + (if n == 0 then 0.0 else 7.0 / 16.0 * ErrorSum(page, y, n - 1))
            == 255.0 * WhiteIn(page, y, n) as real + ErrorSum(page, y, n)
    decreases n
  {
    if n > 0 {
      RowBalance(page, y, n - 1);
      Recurrence(page, y, n - 1);
      if y > 0 { AboveStep(page, y, n); }
      if n > 1 { assert ErrorSum(page, y, n - 1) == ErrorSum(page, y, n - 2) + page.Error(y, n - 2); }
    }
  }

  lemma {:induction false} LostInRow(page: Page, y: nat, n: nat)
    requires page.Valid() && y < page.height && n <= page.width
    ensures LostSum(page, y, n) ==
      (if 0 < n == page.width then 7.0 / 16.0 * page.Error(y, n - 1) else 0.0)
      + (if y + 1 == page.height then 9.0 / 16.0 * ErrorSum(page, y, n)
         else if n == 0 then 0.0
         else 3.0 / 16.0 * page.Error(y, 0) + if n == page.width then 1.0 / 16.0 * page.Error(y, n - 1) else 0.0)
    decreases n
  {
    if n > 0 { LostInRow(page, y, n - 1); }
  }

  /** After n rows: the grays read so far are the white printed so far, the error dropped so
      far and, unless that was the last row, what is still on its way down. */
  lemma {:induction false} PageBalance(page: Page, n: nat)
    requires page.Valid() && 0 < n <= page.height && page.width > 0
    ensures TotalGray(page, n) == 255.0 * TotalWhite(page, n) as real + TotalLost(page, n)
      + if n == page.height then 0.0
        else 9.0 / 16.0 * ErrorSum(page, n - 1, page.width)
             - 3.0 / 16.0 * page.Error(n - 1, 0) - 1.0 / 16.0 * page.Error(n - 1, page.width - 1)
    decreases n
  {
    RowBalance(page, n - 1, page.width);
    LostInRow(page, n - 1, page.width);
    if n > 1 {
      PageBalance(page, n - 1);
    }
  }

  /** Ink is conserved up to the border, for any page and any threshold: the sum of the gray
      buffer is 255 times the blank dots of the printed rows and the error dropped. */
  lemma InkIsConserved(page: Page)
    requires page.Valid()
    ensures TotalGray(page, page.height) == Sum(page.gray[..page.width * page.height]) as real
    ensures TotalWhite(page, page.height) == BlankDotsIn(page.Dithered(), page.width)
    ensures Sum(page.gray[..page.width * page.height]) as real
      == 255.0 * BlankDotsIn(page.Dithered(), page.width) as real + TotalLost(page, page.height)
  {
    GraysAddUp(page, page.height);
    WhitesAddUp(page, page.height);
    assert page.Dithered()[..page.height] == page.Dithered();
    Conserved(page);
  }

  function Sum(values: seq<int>): int {
    if values == [] then 0 else Sum(values[..|values|-1]) + values[|values|-1]
  }

  /** The blank dots among the first `width` of each row. */
  function BlankDotsIn(rows: seq<Row>, width: nat): nat
    requires forall i :: 0 <= i < |rows| ==> width <= 8 * |rows[i]|
  {
    if rows == [] then 0 else BlankDotsIn(rows[..|rows|-1], width) + BlankDots(rows[|rows|-1], width)
  }

  lemma SumPush(values: seq<int>, at: nat)
    requires at < |values|
    ensures Sum(values[..at + 1]) == Sum(values[..at]) + values[at]
  {
    assert values[..at + 1][..at] == values[..at];
  }

  lemma RowEnds(y: nat, n: nat, width: nat, height: nat)
    requires y < height && n <= width
    ensures 0 <= y * width <= y * width + n <= width * height
  {
    assert (y + 1) * width <= height * width;
    assert y * width + width == (y + 1) * width;
  }

  lemma {:induction false} RowGraysAddUp(page: Page, y: nat, n: nat, start: nat)
    requires page.Valid() && y < page.height && n <= page.width && start == y * page.width
    ensures start + n <= page.width * page.height
    ensures Sum(page.gray[..start + n]) as real == Sum(page.gray[..start]) as real + GraySum(page, y, n)
    decreases n
  {
    RowEnds(y, n, page.width, page.height);
    hide Sum;
    if n > 0 {
      RowGraysAddUp(page, y, n - 1, start);
      SumPush(page.gray, start + (n - 1));
      assert page.Gray(y, n - 1) == page.gray[start + (n - 1)] as real;
    }
  }

  lemma {:induction false} GraysAddUp(page: Page, n: nat)
    requires page.Valid() && n <= page.height
    ensures 0 <= n * page.width <= page.width * page.height
    ensures TotalGray(page, n) == Sum(page.gray[..n * page.width]) as real
    decreases n
  {
    if n > 0 {
      GraysAddUp(page, n - 1);
      RowGraysAddUp(page, n - 1, page.width, (n - 1) * page.width);
      assert (n - 1) * page.width + page.width == n * page.width;
    }
  }

  lemma {:induction false} WhitesAddUp(page: Page, n: nat)
    requires page.Valid() && n <= page.height
    ensures TotalWhite(page, n) == BlankDotsIn(page.Dithered()[..n], page.width)
    decreases n
  {
    hide Page.Valid, Page.DitheredRow, BlankDots, WhiteIn;
    if n > 0 {
      WhitesAddUp(page, n - 1);
      WhiteIsBlank(page, n - 1, page.width);
      assert page.Dithered()[..n][..n - 1] == page.Dithered()[..n - 1];
    }
  }

  lemma Conserved(page: Page)
    requires page.Valid()
    ensures TotalGray(page, page.height) == 255.0 * TotalWhite(page, page.height) as real + TotalLost(page, page.height)
  {
    if page.height > 0 && page.width > 0 { PageBalance(page, page.height); } else { EmptyPage(page, page.height); }
  }

  lemma {:induction false} EmptyPage(page: Page, n: nat)
    requires page.Valid() && n <= page.height && (page.width == 0 || page.height == 0)
    ensures TotalGray(page, n) == TotalLost(page, n) == 0.0 && TotalWhite(page, n) == 0
    decreases n
  {
    if n > 0 { EmptyPage(page, n - 1); }
  }

  // ---- the perimeter bound -----------------------------------------------------------------

  function Abs(r: real): real { if r < 0.0 then -r else r }

  /** The largest size an error can have: 128 at the default threshold. */
  function Limit(page: Page): real {
    if page.threshold >= 128 then page.threshold as real else 255.0 - page.threshold as real
  }

  /** n times r, one at a time. */
  function Times(n: nat, r: real): real {
    if n == 0 then 0.0 else Times(n - 1, r) + r
  }

  lemma {:induction false} TimesIs(n: nat, r: real)
    ensures Times(n, r) == n as real * r
  {
    if n > 0 {
      TimesIs(n - 1, r);
      assert n as real * r == (n - 1) as real * r + r;
    }
  }

  lemma {:induction false} RowErrorsAddUp(page: Page, y: nat, n: nat)
    requires Photographic(page) && y < page.height && n <= page.width
    ensures Abs(9.0 / 16.0 * ErrorSum(page, y, n)) <= Times(n, 9.0 / 16.0 * Limit(page))
    decreases n
  {
    if n > 0 { RowErrorsAddUp(page, y, n - 1); ErrorsStayBounded(page, y, n - 1); }
  }

  /** What one row drops: 11/16 of an error at most, and for the last row 9/16 of each and
      all of its last. */
  lemma RowLosesLittle(page: Page, y: nat)
    requires Photographic(page) && y < page.height && page.width > 0
    ensures Abs(LostSum(page, y, page.width)) <=
      if y + 1 < page.height then 11.0 / 16.0 * Limit(page)
      else Times(page.width - 1, 9.0 / 16.0 * Limit(page)) + Limit(page)
  {
    var w := page.width;
    LostInRow(page, y, w);
    ErrorsStayBounded(page, y, 0);
    ErrorsStayBounded(page, y, w - 1);
    RowErrorsAddUp(page, y, w - 1);
    assert ErrorSum(page, y, w) == ErrorSum(page, y, w - 1) + page.Error(y, w - 1);
  }

  lemma {:induction false} PageLosesLittle(page: Page, n: nat)
    requires Photographic(page) && n <= page.height && page.width > 0
    ensures Abs(TotalLost(page, n)) <=
      if n < page.height || n == 0 then Times(n, 11.0 / 16.0 * Limit(page))
      else Times(n - 1, 11.0 / 16.0 * Limit(page)) + Times(page.width - 1, 9.0 / 16.0 * Limit(page)) + Limit(page)
    decreases n
  {
    if n > 0 {
      PageLosesLittle(page, n - 1);
      RowLosesLittle(page, n - 1);
    }
  }

  /** 11/16 of an error for each row but the last, 9/16 for each column but one, and one whole. */
  function Perimeter(height: nat, width: nat, limit: real): real {
    (height - 1) as real * (11.0 / 16.0 * limit) + (width - 1) as real * (9.0 / 16.0 * limit) + limit
  }

  lemma PerimeterIs(height: nat, width: nat, limit: real)
    ensures 16.0 * Perimeter(height, width, limit) == limit * (11 * height + 9 * width - 4) as real
  {
    assert (11 * height + 9 * width - 4) as real == 11.0 * (height - 1) as real + 9.0 * (width - 1) as real + 16.0;
  }

  /** The difference between the gray read and the white printed is bounded by the perimeter
      of the page, not by its area. */
  lemma InkBalance(page: Page)
    requires page.Valid() && 1 <= page.threshold <= 255 && forall i :: 0 <= i < |page.gray| ==> 0 <= page.gray[i] <= 255
    requires page.width >= 1 && page.height >= 1
    ensures
      var limit := if page.threshold >= 128 then page.threshold as real else 255.0 - page.threshold as real;
      var bound := Perimeter(page.height, page.width, limit);
      var gray, white := Sum(page.gray[..page.width * page.height]), BlankDotsIn(page.Dithered(), page.width);
      -bound <= gray as real - 255.0 * white as real <= bound
  {
    assert Limit(page) == if page.threshold >= 128 then page.threshold as real else 255.0 - page.threshold as real;
    assert Photographic(page);
    hide *;
    LossBound(page);
    TwoSided(page);
  }

  lemma LossBound(page: Page)
    requires Photographic(page) && page.width >= 1 && page.height >= 1
    ensures Abs(TotalLost(page, page.height)) <= Perimeter(page.height, page.width, Limit(page))
  {
    hide Limit, TotalLost, Times, Abs;
    PageLosesLittle(page, page.height);
    TimesIs(page.height - 1, 11.0 / 16.0 * Limit(page));
    TimesIs(page.width - 1, 9.0 / 16.0 * Limit(page));
  }

  /** What was dropped is the difference between gray and white. */
  lemma TwoSided(page: Page)
    requires page.Valid()
    ensures
      var gray, white := Sum(page.gray[..page.width * page.height]), BlankDotsIn(page.Dithered(), page.width);
      var lost := Abs(TotalLost(page, page.height));
      -lost <= gray as real - 255.0 * white as real <= lost
  {
    hide TotalLost, Sum, BlankDotsIn, TotalGray, TotalWhite;
    InkIsConserved(page);
  }

  /** At the default threshold that is 88 a row, 72 a column, and 128. */
  lemma InkBalanceByDefault(page: Page)
    requires page.Valid() && page.threshold == 128 && forall i :: 0 <= i < |page.gray| ==> 0 <= page.gray[i] <= 255
    requires page.width >= 1 && page.height >= 1
    ensures
      var bound := 88.0 * (page.height - 1) as real + 72.0 * (page.width - 1) as real + 128.0;
      var gray, white := Sum(page.gray[..page.width * page.height]), BlankDotsIn(page.Dithered(), page.width);
      -bound <= gray as real - 255.0 * white as real <= bound
  {
    assert Perimeter(page.height, page.width, 128.0) == 88.0 * (page.height - 1) as real + 72.0 * (page.width - 1) as real + 128.0;
    hide *;
    InkBalance(page);
  }
}
