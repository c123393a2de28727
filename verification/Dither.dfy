/** Floyd-Steinberg dithering of a gray page, in exact arithmetic. */
module Dither {
  import opened Bits

  /** A gray page, top row first, 0 = black, and the threshold between ink and paper. */
  datatype Page = Page(gray: seq<int>, width: nat, height: nat, threshold: int) {

    /** There is a gray for every pixel. */
    predicate Valid() { width * height <= |gray| }

    function Gray(y: nat, x: nat): real
      requires Valid() && y < height && x < width
    {
      InsidePage(y, x, width, height);
      gray[y * width + x] as real
    }

    /** The value of a pixel once the row above has been diffused into it. */
    function Above(y: nat, x: nat): real
      requires Valid() && y < height && x < width
      decreases y, x, 0
    {
      Gray(y, x) +
      if y == 0 then 0.0
      else (if x + 1 < width then Error(y - 1, x + 1) * 3.0 / 16.0 else 0.0)
           + Error(y - 1, x) * 5.0 / 16.0
           + (if x > 0 then Error(y - 1, x - 1) * 1.0 / 16.0 else 0.0)
    }

    /** The value of a pixel when it is quantised. */
    function Value(y: nat, x: nat): real
      requires Valid() && y < height && x < width
      decreases y, x, 1
    {
      Above(y, x) + if x > 0 then Error(y, x - 1) * 7.0 / 16.0 else 0.0
    }

    predicate IsInk(y: nat, x: nat)
      requires Valid() && y < height && x < width
      decreases y, x, 2
    {
      Value(y, x) < threshold as real
    }

    function Error(y: nat, x: nat): real
      requires Valid() && y < height && x < width
      decreases y, x, 3
    {
      Value(y, x) - if IsInk(y, x) then 0.0 else 255.0
    }

    /** A dot of the printed row: past the width there is none. */
    predicate Dot(y: nat, x: nat)
      requires Valid() && y < height
    {
      x < width && IsInk(y, x)
    }

    function BytesPerRow(): nat { (width + 7) / 8 }

    function DitheredRow(y: nat): (row: Row)
      requires Valid() && y < height
      ensures |row| == BytesPerRow()
      ensures forall x :: 0 <= x < 8 * |row| ==> (Ink(row, x) <==> Dot(y, x))
    {
      var row := seq(BytesPerRow(), i requires 0 <= i < BytesPerRow() =>
        PackByte(seq(8, k requires 0 <= k < 8 => Dot(y, 8 * i + k))));
      assert forall x :: 0 <= x < 8 * |row| ==> (Ink(row, x) <==> Dot(y, x)) by {
        forall x | 0 <= x < 8 * |row| ensures Ink(row, x) <==> Dot(y, x) {
          assert 8 * (x / 8) + x % 8 == x;
        }
      }
      row
    }

    function Dithered(): (rows: seq<Row>)
      requires Valid()
      ensures |rows| == height
    {
      seq(height, y requires 0 <= y < height => DitheredRow(y))
    }

    /** A pixel of row `y`, `y` > 0, once `done` pixels of the row above have been diffused. */
    function Partly(y: nat, x: nat, done: nat): real
      requires Valid() && 0 < y < height && x < width && done <= width
    {
      Gray(y, x)
      + (if x + 1 < done then Error(y - 1, x + 1) * 3.0 / 16.0 else 0.0)
      + (if x < done then Error(y - 1, x) * 5.0 / 16.0 else 0.0)
      + (if x > 0 && x - 1 < done then Error(y - 1, x - 1) * 1.0 / 16.0 else 0.0)
    }
  }

  predicate Ink(row: Row, x: nat)
    requires x < 8 * |row|
  {
    Bit(row[x / 8], x % 8)
  }

  lemma InsidePage(y: nat, x: nat, width: nat, height: nat)
    requires y < height && x < width
    ensures 0 <= y * width + x < width * height
  {
    assert (y + 1) * width <= height * width;
  }

  lemma SameRows(a: Row, b: Row)
    requires |a| == |b| && forall x :: 0 <= x < 8 * |a| ==> (Ink(a, x) <==> Ink(b, x))
    ensures a == b
  {
    forall i | 0 <= i < |a| ensures a[i] == b[i] {
      forall k | 0 <= k < 8 ensures Bit(a[i], k) <==> Bit(b[i], k) {
        assert (8 * i + k) / 8 == i && (8 * i + k) % 8 == k;
        assert Ink(a, 8 * i + k) <==> Ink(b, 8 * i + k);
      }
      SameBits(a[i], b[i]);
    }
  }

  /** Before pixel `x` of row `y` is quantised, `current` holds the row and `following` the
      next one, as far as the errors of the pixels to the left of `x` have reached them. */
  ghost predicate Working(page: Page, y: nat, x: nat, current: seq<real>, following: seq<real>)
    requires page.Valid() && y < page.height && x <= page.width
    requires |current| == |following| == page.width
  {
    && (x < page.width ==> current[x] == page.Value(y, x))
    && (forall i :: x < i < page.width ==> current[i] == page.Above(y, i))
    && (y + 1 < page.height ==> forall i :: 0 <= i < page.width ==> following[i] == page.Partly(y + 1, i, x))
  }

  ghost predicate DotsUpTo(page: Page, y: nat, x: nat, bits: Row)
    requires page.Valid() && y < page.height
  {
    |bits| == page.BytesPerRow() && forall i :: 0 <= i < 8 * |bits| ==> (Ink(bits, i) <==> i < x && page.Dot(y, i))
  }

  /** Pushes the error of pixel `x` on to the right and into the next row. */
  method Diffuse(page: Page, y: nat, x: nat, error: real, current: array<real>, following: array<real>)
    requires page.Valid() && y < page.height && x < page.width
    requires current.Length == following.Length == page.width && current != following
    requires Working(page, y, x, current[..], following[..]) && error == page.Error(y, x)
    modifies current, following
    ensures Working(page, y, x + 1, current[..], following[..])
  {
    if error != 0.0 {
      if x + 1 < page.width {
        current[x + 1] := current[x + 1] + error * 7.0 / 16.0;
      }
      if y + 1 < page.height {
        if x > 0 {
          following[x - 1] := following[x - 1] + error * 3.0 / 16.0;
        }
        following[x] := following[x] + error * 5.0 / 16.0;
        if x + 1 < page.width {
          following[x + 1] := following[x + 1] + error * 1.0 / 16.0;
        }
      }
    }
  }

  /** row[x >> 3] |= 0x80 >> (x & 7) */
  method SetDot(page: Page, y: nat, x: nat, bits: array<Byte>)
    requires page.Valid() && y < page.height && x < page.width
    requires DotsUpTo(page, y, x, bits[..]) && page.IsInk(y, x)
    modifies bits
    ensures DotsUpTo(page, y, x + 1, bits[..])
  {
    ghost var before := bits[..];
    bits[x / 8] := WithBit(bits[x / 8], x % 8);
    forall i | 0 <= i < 8 * bits.Length ensures Ink(bits[..], i) <==> i < x + 1 && page.Dot(y, i) {
      assert Ink(before, i) <==> i < x && page.Dot(y, i);
      assert i == 8 * (i / 8) + i % 8 && x == 8 * (x / 8) + x % 8;
    }
  }

  /** The loop over one row: quantises `current` left to right. */
  method DitherRow(page: Page, y: nat, current: array<real>, following: array<real>) returns (row: Row)
    requires page.Valid() && y < page.height
    requires current.Length == following.Length == page.width && current != following
    requires forall i :: 0 <= i < page.width ==> current[i] == page.Above(y, i)
    requires y + 1 < page.height ==> forall i :: 0 <= i < page.width ==> following[i] == page.Gray(y + 1, i)
    modifies current, following
    ensures row == page.DitheredRow(y)
    ensures y + 1 < page.height ==> forall i :: 0 <= i < page.width ==> following[i] == page.Above(y + 1, i)
  {
    var bits := new Byte[page.BytesPerRow()](_ => 0);
    NoInk(bits[..]);
    var x := 0;
    while x < page.width
      invariant 0 <= x <= page.width
      invariant Working(page, y, x, current[..], following[..])
      invariant DotsUpTo(page, y, x, bits[..])
    {
      var value := current[x];
      var quantised := if value < page.threshold as real then 0.0 else 255.0;
      if quantised == 0.0 {
        SetDot(page, y, x, bits);
      }
      assert DotsUpTo(page, y, x + 1, bits[..]);
      Diffuse(page, y, x, value - quantised, current, following);
      x := x + 1;
    }
    row := bits[..];
    SameRows(row, page.DitheredRow(y));
  }

  lemma NoInk(row: Row)
    requires forall i :: 0 <= i < |row| ==> row[i] == 0
    ensures forall x :: 0 <= x < 8 * |row| ==> !Ink(row, x)
  {
    forall x | 0 <= x < 8 * |row| ensures !Ink(row, x) { ZeroDigit(7 - x % 8); }
  }

  lemma {:induction false} ZeroDigit(j: nat)
    ensures !Digit(0, j)
  {
    if j > 0 { ZeroDigit(j - 1); }
  }

  /** The loop over the page, with `following` becoming `current` row by row. */
  method GrayToRows(page: Page) returns (rows: seq<Row>)
    requires page.width * page.height <= |page.gray|
    ensures rows == page.Dithered()
    ensures exists e: (int, int) -> real :: Diffuses(page.gray, page.width, page.height, page.threshold, rows, e)
  {
    rows := [];
    var current := RowOfGrays(page, 0);
    var y := 0;
    while y < page.height
      invariant 0 <= y <= page.height
      invariant fresh(current) && current.Length == page.width
      invariant y < page.height ==> forall i :: 0 <= i < page.width ==> current[i] == page.Above(y, i)
      invariant rows == page.Dithered()[..y]
    {
      var following := RowOfGrays(page, y + 1);
      var row := DitherRow(page, y, current, following);
      rows := rows + [row];
      current := following;
      y := y + 1;
    }
    DitheredDiffuses(page);
  }

  /** A pixel's own gray and its shares of the errors around it. */
  function Incoming(gray: seq<int>, width: nat, height: nat, e: (int, int) -> real, y: nat, x: nat): real
    requires width * height <= |gray| && y < height && x < width
  {
    InsidePage(y, x, width, height);
    gray[y * width + x] as real + e(y, x - 1) * 7.0 / 16.0
    + e(y - 1, x + 1) * 3.0 / 16.0 + e(y - 1, x) * 5.0 / 16.0 + e(y - 1, x - 1) * 1.0 / 16.0
  }

  /** The promise of `gray_to_rows`, from the buffer itself: each dot is the comparison of its
      pixel's gray and shares of four neighbours' errors with the threshold, the error is what
      the comparison leaves over, nothing comes from outside the page, and padding dots are
      clear. */
  ghost predicate Diffuses(gray: seq<int>, width: nat, height: nat, threshold: int, rows: seq<Row>, e: (int, int) -> real)
    requires width * height <= |gray|
  {
    && |rows| == height
    && (forall y :: 0 <= y < height ==> |rows[y]| == (width + 7) / 8)
    && (forall y, x :: 0 <= y < height && width <= x < 8 * |rows[y]| ==> !Ink(rows[y], x))
    && (forall y, x :: y < 0 || x < 0 || x >= width ==> e(y, x) == 0.0)
    && (forall y, x :: 0 <= y < height && 0 <= x < width ==> PixelRight(gray, width, height, threshold, rows[y], e, y, x))
  }

  ghost predicate PixelRight(gray: seq<int>, width: nat, height: nat, threshold: int, row: Row, e: (int, int) -> real, y: nat, x: nat)
    requires width * height <= |gray| && y < height && x < width && |row| == (width + 7) / 8
  {
    var value := Incoming(gray, width, height, e, y, x);
    && (Ink(row, x) <==> value < threshold as real)
    && e(y, x) == if value < threshold as real then value else value - 255.0
  }

  /** That promise leaves no choice: it determines every row. */
  lemma DiffusesOneWay(gray: seq<int>, width: nat, height: nat, threshold: int,
                       rows: seq<Row>, e: (int, int) -> real, rows': seq<Row>, e': (int, int) -> real)
    requires width * height <= |gray|
    requires Diffuses(gray, width, height, threshold, rows, e) && Diffuses(gray, width, height, threshold, rows', e')
    ensures rows == rows'
  {
    forall y | 0 <= y < height ensures rows[y] == rows'[y] {
      forall x | 0 <= x < 8 * |rows[y]| ensures Ink(rows[y], x) <==> Ink(rows'[y], x) {
        if x < width { SamePixel(gray, width, height, threshold, rows, e, rows', e', y, x); }
      }
      SameRows(rows[y], rows'[y]);
    }
  }

  lemma {:induction false} SamePixel(gray: seq<int>, width: nat, height: nat, threshold: int,
                                     rows: seq<Row>, e: (int, int) -> real, rows': seq<Row>, e': (int, int) -> real,
                                     y: int, x: int)
    requires width * height <= |gray| && -1 <= y < height && -1 <= x <= width
    requires Diffuses(gray, width, height, threshold, rows, e) && Diffuses(gray, width, height, threshold, rows', e')
    ensures e(y, x) == e'(y, x)
    ensures 0 <= y && 0 <= x < width ==> (Ink(rows[y], x) <==> Ink(rows'[y], x))
    decreases y + 1, x + 1
  {
    if 0 <= y && 0 <= x < width {
      SamePixel(gray, width, height, threshold, rows, e, rows', e', y, x - 1);
      SamePixel(gray, width, height, threshold, rows, e, rows', e', y - 1, x + 1);
      SamePixel(gray, width, height, threshold, rows, e, rows', e', y - 1, x);
      SamePixel(gray, width, height, threshold, rows, e, rows', e', y - 1, x - 1);
      assert Incoming(gray, width, height, e, y, x) == Incoming(gray, width, height, e', y, x);
      hide Incoming, Ink;
      assert PixelRight(gray, width, height, threshold, rows[y], e, y, x);
      assert PixelRight(gray, width, height, threshold, rows'[y], e', y, x);
    }
  }

  /** The error of a pixel, none outside the page. */
  function ErrorAt(page: Page, y: int, x: int): real
    requires page.Valid()
  {
    if 0 <= y < page.height && 0 <= x < page.width then page.Error(y, x) else 0.0
  }

  /** The recurrence, unfolded once. */
  lemma Recurrence(page: Page, y: nat, x: nat)
    requires page.Valid() && y < page.height && x < page.width
    ensures page.Value(y, x) == page.Above(y, x) + if x > 0 then page.Error(y, x - 1) * 7.0 / 16.0 else 0.0
    ensures page.Error(y, x) == page.Value(y, x) - if page.Value(y, x) < page.threshold as real then 0.0 else 255.0
    ensures page.IsInk(y, x) <==> page.Value(y, x) < page.threshold as real
    ensures page.Above(y, x) - page.Gray(y, x) ==
      if y == 0 then 0.0
      else (if x + 1 < page.width then page.Error(y - 1, x + 1) * 3.0 / 16.0 else 0.0)
           + page.Error(y - 1, x) * 5.0 / 16.0
           + (if x > 0 then page.Error(y - 1, x - 1) * 1.0 / 16.0 else 0.0)
  {
  }

  lemma IncomingIs(page: Page, y: nat, x: nat, e: (int, int) -> real)
    requires page.Valid() && y < page.height && x < page.width
    ensures Incoming(page.gray, page.width, page.height, e, y, x) == page.Gray(y, x) + e(y, x - 1) * 7.0 / 16.0
      + e(y - 1, x + 1) * 3.0 / 16.0 + e(y - 1, x) * 5.0 / 16.0 + e(y - 1, x - 1) * 1.0 / 16.0
  {
  }

  lemma PixelIs(page: Page, y: nat, x: nat, e: (int, int) -> real)
    requires page.Valid() && y < page.height && x < page.width
    requires forall i, k :: e(i, k) == ErrorAt(page, i, k)
    ensures page.Value(y, x) == Incoming(page.gray, page.width, page.height, e, y, x)
    ensures e(y, x) == if page.IsInk(y, x) then page.Value(y, x) else page.Value(y, x) - 255.0
  {
    Recurrence(page, y, x);
    IncomingIs(page, y, x, e);
    hide Page.Error, Page.Value, Page.Above, Page.IsInk, Page.Gray, Page.Valid, Incoming;
    assert e(y, x - 1) == if x > 0 then page.Error(y, x - 1) else 0.0;
    assert e(y - 1, x + 1) == if y > 0 && x + 1 < page.width then page.Error(y - 1, x + 1) else 0.0;
    assert e(y - 1, x) == if y > 0 then page.Error(y - 1, x) else 0.0;
    assert e(y - 1, x - 1) == if y > 0 && x > 0 then page.Error(y - 1, x - 1) else 0.0;
  }

  lemma DitheredDiffuses(page: Page)
    requires page.Valid()
    ensures exists e: (int, int) -> real :: Diffuses(page.gray, page.width, page.height, page.threshold, page.Dithered(), e)
  {
    var e := (y: int, x: int) => ErrorAt(page, y, x);
    var rows := page.Dithered();
    assert forall y, x :: y < 0 || x < 0 || x >= page.width ==> e(y, x) == 0.0;
    assert page.width * page.height <= |page.gray| && page.BytesPerRow() == (page.width + 7) / 8;
    hide Page.Valid, Page.IsInk, Page.Value, Page.DitheredRow, Ink, Incoming, ErrorAt, PixelRight;
    forall y, x | 0 <= y < page.height && 0 <= x < page.width
      ensures PixelRight(page.gray, page.width, page.height, page.threshold, rows[y], e, y, x)
    {
      PixelIsRight(page, y, x, e);
    }
    assert Diffuses(page.gray, page.width, page.height, page.threshold, rows, e);
  }

  lemma PixelIsRight(page: Page, y: nat, x: nat, e: (int, int) -> real)
    requires page.Valid() && y < page.height && x < page.width
    requires forall i, k :: e(i, k) == ErrorAt(page, i, k)
    ensures |page.Dithered()[y]| == (page.width + 7) / 8
    ensures PixelRight(page.gray, page.width, page.height, page.threshold, page.Dithered()[y], e, y, x)
  {
    PixelIs(page, y, x, e);
    InkIs(page, y, x);
    hide Page.IsInk, Page.Value, Page.DitheredRow, Ink, Incoming, ErrorAt;
  }

  lemma InkIs(page: Page, y: nat, x: nat)
    requires page.Valid() && y < page.height && x < page.width
    ensures x < 8 * |page.Dithered()[y]| && (Ink(page.Dithered()[y], x) <==> page.Value(y, x) < page.threshold as real)
    ensures page.IsInk(y, x) <==> page.Value(y, x) < page.threshold as real
  {
    hide Page.Valid, Page.Value, Page.DitheredRow, Ink;
    assert page.Dithered()[y] == page.DitheredRow(y);
    assert Ink(page.DitheredRow(y), x) <==> page.Dot(y, x);
  }

  /** The grays of one row, or anything past the last one. */
  method RowOfGrays(page: Page, y: nat) returns (row: array<real>)
    requires page.Valid()
    ensures fresh(row) && row.Length == page.width
    ensures y < page.height ==> forall i :: 0 <= i < page.width ==> row[i] == page.Gray(y, i)
  {
    row := new real[page.width](_ => 0.0);
    if y < page.height {
      var x := 0;
      while x < page.width
        invariant 0 <= x <= page.width
        invariant forall i :: 0 <= i < x ==> row[i] == page.Gray(y, i)
      {
        InsidePage(y, x, page.width, page.height);
        row[x] := page.gray[y * page.width + x] as real;
        x := x + 1;
      }
    }
  }
}
