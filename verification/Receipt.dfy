/** From gray pages to the bytes of a receipt, and back through the decoder. */
module Receipt {
  import opened Bits
  import opened Options
  import opened Dither
  import opened Escpos
  import opened Rounding

  const FEED_LINES := 4
  const PAD_MM := 4.0
  const DEFAULT_THRESHOLD := 128

  // ---- trimming ----------------------------------------------------------------------------

  /** any(row) */
  predicate AnyByte(row: Row) {
    exists i :: 0 <= i < |row| && row[i] != 0
  }

  /** A row carries ink if one of its dots does. */
  predicate HasInk(row: Row) {
    exists x :: 0 <= x < 8 * |row| && Ink(row, x)
  }

  lemma AnyByteIsInk(row: Row)
    ensures AnyByte(row) <==> HasInk(row)
  {
    if AnyByte(row) {
      var i :| 0 <= i < |row| && row[i] != 0;
      if forall k :: 0 <= k < 8 ==> !Bit(row[i], k) {
        forall k | 0 <= k < 8 ensures !Bit(0, k) { ZeroDigit(7 - k); }
        SameBits(row[i], 0);
        assert false;
      }
      var k :| 0 <= k < 8 && Bit(row[i], k);
      assert (8 * i + k) / 8 == i && (8 * i + k) % 8 == k;
      assert Ink(row, 8 * i + k);
    }
    if !AnyByte(row) { NoInk(row); }
  }

  /** The indices of the rows with ink, in order. */
  function InkIndices(rows: seq<Row>): seq<nat> {
    if rows == [] then []
    else InkIndices(rows[..|rows|-1]) + if AnyByte(rows[|rows|-1]) then [|rows|-1] else []
  }

  function TrimBlankRows(rows: seq<Row>): seq<Row> {
    var ink := InkIndices(rows);
    if ink == [] then []
    else InkIndicesAre(rows); rows[ink[0]..ink[|ink|-1] + 1]
  }

  ghost predicate Ascending(ids: seq<nat>) {
    forall k, m :: 0 <= k < m < |ids| ==> ids[k] < ids[m]
  }

  /** `ids` are the rows with ink among the first `n`. */
  ghost predicate InkBelow(rows: seq<Row>, n: nat, ids: seq<nat>)
    requires n <= |rows|
  {
    && Ascending(ids)
    && (forall k :: 0 <= k < |ids| ==> ids[k] < n && HasInk(rows[ids[k]]))
    && forall i :: 0 <= i < n && HasInk(rows[i]) ==> i in ids
  }

  lemma InkBelowStep(rows: seq<Row>, n: nat, ids: seq<nat>)
    requires n < |rows| && InkBelow(rows[..n], n, ids)
    ensures InkBelow(rows, n + 1, ids + if HasInk(rows[n]) then [n] else [])
  {
    hide HasInk;
    assert forall i :: 0 <= i < n ==> rows[..n][i] == rows[i];
    var more := ids + if HasInk(rows[n]) then [n] else [];
    forall i | 0 <= i < n + 1 && HasInk(rows[i]) ensures i in more {
      if i < n { assert HasInk(rows[..n][i]); }
    }
  }

  lemma {:induction false} InkIndicesAre(rows: seq<Row>)
    ensures InkBelow(rows, |rows|, InkIndices(rows))
    decreases |rows|
  {
    if rows != [] {
      AnyByteIsInk(rows[|rows|-1]);
      hide InkBelow, HasInk, AnyByte;
      InkIndicesAre(rows[..|rows|-1]);
      InkBelowStep(rows, |rows| - 1, InkIndices(rows[..|rows|-1]));
    }
  }

  lemma AscendingBounds(ids: seq<nat>, i: nat)
    requires Ascending(ids) && i in ids
    ensures ids[0] <= i <= ids[|ids|-1]
  {
    var k :| 0 <= k < |ids| && ids[k] == i;
  }

  /** `rows[a..b]` holds all the ink there is. */
  ghost predicate HoldsAllInk(rows: seq<Row>, a: nat, b: nat) {
    a <= b <= |rows| && forall i, x :: 0 <= i < |rows| && 0 <= x < 8 * |rows[i]| && Ink(rows[i], x) ==> a <= i < b
  }

  /** The trimmed page is the shortest slice that holds all the ink: it holds it, and every
      slice that holds it contains this one. */
  lemma TrimIsShortest(rows: seq<Row>) returns (a: nat, b: nat)
    ensures HoldsAllInk(rows, a, b) && TrimBlankRows(rows) == rows[a..b]
    ensures forall i: nat, j: nat :: HoldsAllInk(rows, i, j) ==> a == b || (i <= a && b <= j)
    ensures a < b ==> HasInk(rows[a]) && HasInk(rows[b-1])
    ensures a == FirstInk(rows)
  {
    var ink := InkIndices(rows);
    InkIndicesAre(rows);
    hide HasInk, HoldsAllInk;
    if ink == [] {
      a, b := 0, 0;
    } else {
      a, b := ink[0], ink[|ink|-1] + 1;
      hide InkIndices;
      forall i | 0 <= i < |rows| && HasInk(rows[i]) ensures a <= i < b { AscendingBounds(ink, i); }
    }
    HoldsRowByRow(rows, a, b);
    forall i: nat, j: nat | HoldsAllInk(rows, i, j) ensures a == b || (i <= a && b <= j) { HoldsRowByRow(rows, i, j); }
  }

  /** The first row with ink. */
  function FirstInk(rows: seq<Row>): nat {
    if InkIndices(rows) == [] then 0 else InkIndices(rows)[0]
  }

  lemma HoldsRowByRow(rows: seq<Row>, a: nat, b: nat)
    ensures HoldsAllInk(rows, a, b) <==> a <= b <= |rows| && forall i :: 0 <= i < |rows| && HasInk(rows[i]) ==> a <= i < b
  {
    if HoldsAllInk(rows, a, b) {
      forall i | 0 <= i < |rows| && HasInk(rows[i]) ensures a <= i < b {
        var x :| 0 <= x < 8 * |rows[i]| && Ink(rows[i], x);
      }
    }
    if a <= b <= |rows| && forall i :: 0 <= i < |rows| && HasInk(rows[i]) ==> a <= i < b {
      forall i, x | 0 <= i < |rows| && 0 <= x < 8 * |rows[i]| && Ink(rows[i], x) ensures a <= i < b {
        assert HasInk(rows[i]);
      }
    }
  }

  lemma TrimIsIdempotent(rows: seq<Row>)
    ensures TrimBlankRows(TrimBlankRows(rows)) == TrimBlankRows(rows)
  {
    var a, b := TrimIsShortest(rows);
    var t := TrimBlankRows(rows);
    var c, d := TrimIsShortest(t);
    if t != [] {
      assert HasInk(t[0]) && HasInk(t[|t|-1]);
      assert t[0..|t|] == t;
    }
  }

  /** The rows that carry ink, in order. */
  function Inked(rows: seq<Row>): seq<Row> {
    if rows == [] then [] else (if HasInk(rows[0]) then [rows[0]] else []) + Inked(rows[1..])
  }

  lemma {:induction false} InkedConcat(a: seq<Row>, b: seq<Row>)
    ensures Inked(a + b) == Inked(a) + Inked(b)
    decreases |a|
  {
    hide HasInk;
    if a == [] {
      assert a + b == b;
    } else {
      InkedConcat(a[1..], b);
      assert (a + b)[1..] == a[1..] + b;
      var first := if HasInk(a[0]) then [a[0]] else [];
      assert Inked(a + b) == first + (Inked(a[1..]) + Inked(b));
    }
  }

  lemma {:induction false} NothingInked(rows: seq<Row>)
    requires forall i :: 0 <= i < |rows| ==> !HasInk(rows[i])
    ensures Inked(rows) == []
    decreases |rows|
  {
    if rows != [] { NothingInked(rows[1..]); }
  }

  /** Trimming loses no row with ink and changes nothing in their order. */
  lemma TrimKeepsInk(rows: seq<Row>)
    ensures Inked(TrimBlankRows(rows)) == Inked(rows)
  {
    var a, b := TrimIsShortest(rows);
    HoldsRowByRow(rows, a, b);
    hide Inked, HasInk, TrimBlankRows, HoldsAllInk;
    Sandwiched(rows[..a], rows[a..b], rows[b..]);
    assert rows[..a] + rows[a..b] + rows[b..] == rows;
  }

  /** Rows without ink around others add none. */
  lemma Sandwiched(above: seq<Row>, rows: seq<Row>, below: seq<Row>)
    requires forall i :: 0 <= i < |above| ==> !HasInk(above[i])
    requires forall i :: 0 <= i < |below| ==> !HasInk(below[i])
    ensures Inked(above + rows + below) == Inked(rows)
  {
    hide Inked, HasInk;
    NothingInked(above);
    NothingInked(below);
    InkedConcat(above, rows);
    InkedConcat(above + rows, below);
    assert [] + Inked(rows) + [] == Inked(rows);
  }

  // ---- the receipt -------------------------------------------------------------------------

  function MmToDots(mm: real, dpi: int): int {
    var n := RoundHalfEven(mm / 25.4 * dpi as real);
    if n < 0 then 0 else n
  }

  /** The blank edge of a receipt is 4 mm to the nearest dot: 32 dots at 203 dpi. */
  lemma PadIsFourMillimetres(dpi: int)
    ensures IsPad(MmToDots(PAD_MM, dpi), dpi)
    ensures dpi == 203 ==> MmToDots(PAD_MM, dpi) == 32
  {
    RoundIsNearest(PAD_MM / 25.4 * dpi as real);
  }

  /** The rows of all pages, each cut to its ink. */
  function ReceiptRows(pages: seq<Page>): seq<Row>
    requires AllValid(pages)
  {
    if pages == [] then []
    else ReceiptRows(pages[..|pages|-1]) + TrimBlankRows(pages[|pages|-1].Dithered())
  }

  /** The rows with ink of all pages, before any trimming. */
  function PageInk(pages: seq<Page>): seq<Row>
    requires AllValid(pages)
  {
    if pages == [] then [] else PageInk(pages[..|pages|-1]) + Inked(pages[|pages|-1].Dithered())
  }

  /** Pages all as wide as the paper. */
  predicate Rendered(pages: seq<Page>, width: nat) {
    forall i :: 0 <= i < |pages| ==> pages[i].Valid() && pages[i].width == width
  }

  /** What rendering hands over: the grays of a page, and its size. */
  datatype Sheet = Sheet(gray: seq<int>, width: nat, height: nat)

  /** The pages a receipt shows: half of white, 128, is the first gray that stays paper. */
  function PagesOf(sheets: seq<Sheet>): seq<Page> {
    seq(|sheets|, i requires 0 <= i < |sheets| => Page(sheets[i].gray, sheets[i].width, sheets[i].height, 128))
  }

  lemma {:induction false} ReceiptRowsAre(pages: seq<Page>, width: nat)
    requires Rendered(pages, width)
    ensures SameWidth(ReceiptRows(pages), (width + 7) / 8)
    ensures Inked(ReceiptRows(pages)) == PageInk(pages)
    decreases |pages|
  {
    if pages != [] {
      hide Page.Valid, Page.DitheredRow, Page.Dithered, Inked, TrimBlankRows;
      var front, page := pages[..|pages|-1], pages[|pages|-1];
      ReceiptRowsAre(front, width);
      TrimKeepsInk(page.Dithered());
      TrimKeepsWidth(page);
      InkedConcat(ReceiptRows(front), TrimBlankRows(page.Dithered()));
    }
  }

  lemma TrimKeepsWidth(page: Page)
    requires page.Valid()
    ensures SameWidth(TrimBlankRows(page.Dithered()), (page.width + 7) / 8)
  {
    hide Page.DitheredRow, TrimBlankRows;
    var a, b := TrimIsShortest(page.Dithered());
  }

  datatype ReceiptResult = Receipt(data: seq<Byte>) | BlankReceipt | TooWide

  /** What the bytes of a receipt make a printer do: print the pages dot by dot between two blank
      edges of 4 mm, feed four lines and cut. */
  ghost predicate PrintsReceipt(data: seq<Byte>, pages: seq<Page>, dpi: int)
    requires AllValid(pages)
  {
    exists cs, pad: int, at ::
      && Decode(data) == Some(cs)
      && IsPad(pad, dpi)
      && ReceiptRows(pages) != [] && IsJob(cs, ReceiptRows(pages), pad, 4, true)
      && Inked(Image(cs)) == PageInk(pages)
      && Shows(Image(cs), pages, at)
  }

  /** 4 mm to the nearest dot, and nothing for a resolution that makes no sense. */
  predicate IsPad(pad: int, dpi: int) {
    if dpi < 0 then pad == 0 else -0.5 <= pad as real - 4.0 / 25.4 * dpi as real <= 0.5
  }

  /** Some page has a dot. */
  predicate AnyDot(pages: seq<Page>)
    requires AllValid(pages)
  {
    exists p, y, x :: 0 <= p < |pages| && 0 <= y < pages[p].height && 0 <= x < pages[p].width && pages[p].Dot(y, x)
  }

  /** `build_escpos_receipt` */
  method BuildEscposReceipt(sheets: seq<Sheet>, ghost width: nat, dpi: int) returns (r: ReceiptResult)
    requires forall i :: 0 <= i < |sheets| ==> sheets[i].width == width && sheets[i].width * sheets[i].height <= |sheets[i].gray|
    ensures r.BlankReceipt? <==> !AnyDot(PagesOf(sheets))
    ensures r.Receipt? <==> AnyDot(PagesOf(sheets)) && (width + 7) / 8 < 65536
    ensures r.Receipt? ==> PrintsReceipt(r.data, PagesOf(sheets), dpi)
  {
    ghost var pages := PagesOf(sheets);
    assert Rendered(pages, width);
    hide AnyDot, PrintsReceipt, PrintsJob, Page.Dithered, TrimBlankRows;
    var rows := [];
    var i := 0;
    while i < |sheets|
      invariant 0 <= i <= |sheets| && rows == ReceiptRows(pages[..i])
    {
      var dithered := GrayToRows(Page(sheets[i].gray, sheets[i].width, sheets[i].height, DEFAULT_THRESHOLD));
      assert pages[..i + 1][..i] == pages[..i];
      rows := rows + TrimBlankRows(dithered);
      i := i + 1;
    }
    assert pages[..i] == pages;
    ReceiptRowsAre(pages, width);
    DotsWhereRows(pages);
    if rows == [] {
      return BlankReceipt;
    }
    var pad := MmToDots(PAD_MM, dpi);
    var built := BuildEscposJob(rows, pad, FEED_LINES, true);
    if built.ValueError? {
      return TooWide;
    }
    ReceiptPrints(built.data, pages, width, dpi);
    return Receipt(built.data);
  }

  lemma ReceiptPrints(data: seq<Byte>, pages: seq<Page>, width: nat, dpi: int)
    requires Rendered(pages, width) && ReceiptRows(pages) != []
    requires PrintsJob(data, ReceiptRows(pages), MmToDots(PAD_MM, dpi), FEED_LINES, true)
    ensures PrintsReceipt(data, pages, dpi)
  {
    PadIsFourMillimetres(dpi);
    hide Decode, IsJob, ReceiptRows, Inked, PageInk, Shows, MmToDots;
    var pad := MmToDots(PAD_MM, dpi);
    var cs :| Decode(data) == Some(cs) && IsJob(cs, ReceiptRows(pages), pad, FEED_LINES, true);
    ReceiptKeepsInk(cs, pages, width, pad);
    var at := ReceiptShows(cs, pages, pad);
  }

  lemma ReceiptShows(cs: seq<Command>, pages: seq<Page>, pad: nat) returns (at: (int, int) -> int)
    requires AllValid(pages) && ReceiptRows(pages) != [] && IsJob(cs, ReceiptRows(pages), pad, FEED_LINES, true)
    ensures Shows(Image(cs), pages, at)
  {
    FramedFrames(Image(cs), ReceiptRows(pages), pad);
    hide Shows, Frames, IsJob, ReceiptRows;
    at := (p: int, y: int) => if 0 <= p < |pages| then pad + Start(pages, p) + y - FirstInk(pages[p].Dithered()) else 0;
    DotsShow(Image(cs), pages, pad, at);
  }

  lemma FramedFrames(image: seq<Row>, rows: seq<Row>, pad: nat)
    requires rows != [] && Framed(image, rows, pad)
    ensures Frames(image, rows, pad)
  {
    hide Ink;
    forall i | 0 <= i < |image| && !(pad <= i < pad + |rows|) ensures !HasInk(image[i]) { NoInk(image[i]); }
  }

  /** There are rows left after trimming exactly when some page has a dot. */
  lemma DotsWhereRows(pages: seq<Page>)
    requires AllValid(pages)
    ensures ReceiptRows(pages) == [] <==> !AnyDot(pages)
  {
    hide Page.Dithered, Page.IsInk, Ink, HasInk, Start;
    var rows := ReceiptRows(pages);
    var at := (p: int, y: int) => if 0 <= p < |pages| then 0 + Start(pages, p) + y - FirstInk(pages[p].Dithered()) else 0;
    assert Frames(rows, rows, 0);
    DotsShow(rows, pages, 0, at);
    if AnyDot(pages) {
      var p, y, x :| 0 <= p < |pages| && 0 <= y < pages[p].height && 0 <= x < pages[p].width && pages[p].Dot(y, x);
      assert 0 <= at(p, y) < |rows|;
    }
    if rows != [] {
      FirstRowHasDot(pages);
    }
  }

  lemma FirstRowHasDot(pages: seq<Page>)
    requires AllValid(pages) && ReceiptRows(pages) != []
    ensures AnyDot(pages)
  {
    assert pages[..|pages|] == pages;
    var p := RowFrom(pages, |pages|, 0);
    var page := pages[p];
    var a, b := TrimIsShortest(page.Dithered());
    hide Page.IsInk;
    var x :| 0 <= x < 8 * |page.Dithered()[a]| && Ink(page.Dithered()[a], x);
    assert page.Dot(a, x);
  }

  /** Seen from the paper: the ink of a decoded receipt is the ink of the pages, no row lost,
      added or out of order. */
  lemma ReceiptKeepsInk(cs: seq<Command>, pages: seq<Page>, width: nat, pad: int)
    requires Rendered(pages, width) && ReceiptRows(pages) != [] && IsJob(cs, ReceiptRows(pages), pad, FEED_LINES, true)
    ensures Inked(Image(cs)) == PageInk(pages)
  {
    ReceiptRowsAre(pages, width);
    var edge := if pad < 0 then 0 else pad;
    hide ReceiptRows, PageInk, Inked, Rendered, Framed, Frames;
    FramedFrames(Image(cs), ReceiptRows(pages), edge);
    FramesKeepInk(Image(cs), ReceiptRows(pages), edge);
  }

  /** Rows without ink around an image add none. */
  lemma FramesKeepInk(image: seq<Row>, rows: seq<Row>, pad: nat)
    requires Frames(image, rows, pad)
    ensures Inked(image) == Inked(rows)
  {
    hide Inked, HasInk;
    var above, below := image[..pad], image[pad + |rows|..];
    Sandwiched(above, rows, below);
    assert image == above + rows + below;
  }

  // ---- dot by dot ------------------------------------------------------------------------------

  predicate HasDot(page: Page, y: nat)
    requires page.Valid() && y < page.height
  {
    exists x :: 0 <= x < page.width && page.Dot(y, x)
  }

  ghost predicate AllValid(pages: seq<Page>) {
    forall i :: 0 <= i < |pages| ==> pages[i].Valid()
  }

  /** Every dot of every page is in the image, in the row that `at` says. */
  ghost predicate ShowsAll(image: seq<Row>, pages: seq<Page>, at: (int, int) -> int)
    requires AllValid(pages)
  {
    forall p, y, x :: 0 <= p < |pages| && 0 <= y < pages[p].height && 0 <= x < pages[p].width && pages[p].Dot(y, x) ==>
      0 <= at(p, y) < |image| && x < 8 * |image[at(p, y)]| && Ink(image[at(p, y)], x)
  }

  /** Every dot of the image is one of those. */
  ghost predicate ShowsOnly(image: seq<Row>, pages: seq<Page>, at: (int, int) -> int)
    requires AllValid(pages)
  {
    forall r, x :: 0 <= r < |image| && 0 <= x < 8 * |image[r]| && Ink(image[r], x) ==>
      exists p, y :: 0 <= p < |pages| && 0 <= y < pages[p].height && at(p, y) == r && pages[p].Dot(y, x)
  }

  /** Later pages come later, and the rows of one page keep their order and their distance. */
  ghost predicate KeepsOrder(pages: seq<Page>, at: (int, int) -> int)
    requires AllValid(pages)
  {
    forall p, y, q, z :: 0 <= p <= q < |pages| && 0 <= y < pages[p].height && 0 <= z < pages[q].height
                         && HasDot(pages[p], y) && HasDot(pages[q], z) ==>
      (p < q ==> at(p, y) < at(q, z)) && (p == q ==> at(q, z) - at(p, y) == z - y)
  }

  /** The image shows the dots of the pages and no others, in their order. */
  ghost predicate Shows(image: seq<Row>, pages: seq<Page>, at: (int, int) -> int)
    requires AllValid(pages)
  {
    ShowsAll(image, pages, at) && ShowsOnly(image, pages, at) && KeepsOrder(pages, at)
  }

  function Part(page: Page): seq<Row>
    requires page.Valid()
  {
    TrimBlankRows(page.Dithered())
  }

  /** Where a page begins among the rows of the receipt. */
  function Start(pages: seq<Page>, p: nat): nat
    requires p <= |pages| && AllValid(pages)
  {
    |ReceiptRows(pages[..p])|
  }

  lemma StartNext(pages: seq<Page>, p: nat)
    requires p < |pages| && AllValid(pages)
    ensures ReceiptRows(pages[..p + 1]) == ReceiptRows(pages[..p]) + Part(pages[p])
    ensures Start(pages, p + 1) == Start(pages, p) + |Part(pages[p])|
  {
    hide Page.Valid;
    assert pages[..p + 1][..p] == pages[..p];
  }

  /** The rows up to a page are a beginning of all rows. */
  lemma {:induction false} RowsGrow(pages: seq<Page>, p: nat, q: nat)
    requires p <= q <= |pages| && AllValid(pages)
    ensures ReceiptRows(pages[..p]) <= ReceiptRows(pages[..q])
    decreases q
  {
    hide ReceiptRows, Part, Start, Page.Valid;
    if p < q {
      RowsGrow(pages, p, q - 1);
      StartNext(pages, q - 1);
    }
  }

  /** A page's rows are where it begins. */
  lemma PageAt(pages: seq<Page>, p: nat, i: nat)
    requires p < |pages| && AllValid(pages) && i < |Part(pages[p])|
    ensures Start(pages, p) + i < |ReceiptRows(pages)| && ReceiptRows(pages)[Start(pages, p) + i] == Part(pages[p])[i]
  {
    hide ReceiptRows, Part, Page.Valid;
    StartNext(pages, p);
    RowsGrow(pages, p + 1, |pages|);
    assert pages[..|pages|] == pages;
    assert ReceiptRows(pages[..p + 1])[Start(pages, p) + i] == Part(pages[p])[i];
  }

  lemma {:induction false} RowFrom(pages: seq<Page>, n: nat, r: nat) returns (p: nat)
    requires n <= |pages| && AllValid(pages) && r < Start(pages, n)
    ensures p < n && Start(pages, p) <= r < Start(pages, p) + |Part(pages[p])|
    decreases n
  {
    if n == 0 {
      assert false;
    } else {
      hide Page.Valid, Part, Start, ReceiptRows;
      StartNext(pages, n - 1);
      if r < Start(pages, n - 1) { p := RowFrom(pages, n - 1, r); } else { p := n - 1; }
    }
  }

  /** Which rows of a page its part holds. */
  lemma PartIs(page: Page)
    requires page.Valid()
    ensures
      var first, part := FirstInk(page.Dithered()), Part(page);
      && (forall i :: 0 <= i < |part| ==> first + i < page.height && part[i] == page.DitheredRow(first + i))
      && (forall y :: 0 <= y < page.height && HasDot(page, y) ==> first <= y < first + |part|)
  {
    hide Page.IsInk, Page.DitheredRow, Ink, HasInk, FirstInk, TrimBlankRows;
    var rows := page.Dithered();
    var a, b := TrimIsShortest(rows);
    forall y | 0 <= y < page.height && HasDot(page, y) ensures a <= y < b {
      var x :| 0 <= x < page.width && page.Dot(y, x);
      assert Ink(rows[y], x);
    }
  }

  /** The image of a receipt: its rows behind `pad` rows without ink and before as many more. */
  ghost predicate Frames(image: seq<Row>, rows: seq<Row>, pad: nat) {
    && |image| == pad + |rows| + pad
    && (forall i :: 0 <= i < |rows| ==> image[pad + i] == rows[i])
    && (forall i :: 0 <= i < |image| && !(pad <= i < pad + |rows|) ==> !HasInk(image[i]))
  }

  /** Each row of a page is as far down as the pad, the pages before it and the rows between the
      page's first ink and itself put it. */
  ghost predicate Places(pages: seq<Page>, pad: nat, at: (int, int) -> int)
    requires AllValid(pages)
  {
    forall p, y :: 0 <= p < |pages| ==> at(p, y) == pad + Start(pages, p) + y - FirstInk(pages[p].Dithered())
  }

  lemma DotsShow(image: seq<Row>, pages: seq<Page>, pad: nat, at: (int, int) -> int)
    requires AllValid(pages) && Frames(image, ReceiptRows(pages), pad) && Places(pages, pad, at)
    ensures Shows(image, pages, at)
  {
    hide *;
    AllShow(image, pages, pad, at);
    OnlyShow(image, pages, pad, at);
    OrderKept(pages, pad, at);
    ShowsIs(image, pages, at);
  }

  lemma ShowsIs(image: seq<Row>, pages: seq<Page>, at: (int, int) -> int)
    requires AllValid(pages) && ShowsAll(image, pages, at) && ShowsOnly(image, pages, at) && KeepsOrder(pages, at)
    ensures Shows(image, pages, at)
  {
  }

  lemma AllShow(image: seq<Row>, pages: seq<Page>, pad: nat, at: (int, int) -> int)
    requires AllValid(pages) && Frames(image, ReceiptRows(pages), pad) && Places(pages, pad, at)
    ensures ShowsAll(image, pages, at)
  {
    hide Page.Valid, Page.Dot, Page.Dithered, Ink, FirstInk, Start, Frames, ReceiptRows;
    forall p, y, x | 0 <= p < |pages| && 0 <= y < pages[p].height && 0 <= x < pages[p].width && pages[p].Dot(y, x)
      ensures 0 <= at(p, y) < |image| && x < 8 * |image[at(p, y)]| && Ink(image[at(p, y)], x)
    {
      DotShows(image, pages, pad, p, y, x);
    }
  }

  lemma OnlyShow(image: seq<Row>, pages: seq<Page>, pad: nat, at: (int, int) -> int)
    requires AllValid(pages) && Frames(image, ReceiptRows(pages), pad) && Places(pages, pad, at)
    ensures ShowsOnly(image, pages, at)
  {
    hide Page.Valid, Page.Dot, Page.Dithered, Ink, FirstInk, Start, Frames, ReceiptRows;
    forall r, x | 0 <= r < |image| && 0 <= x < 8 * |image[r]| && Ink(image[r], x)
      ensures exists p, y :: 0 <= p < |pages| && 0 <= y < pages[p].height && at(p, y) == r && pages[p].Dot(y, x)
    {
      var p, y := DotComesFrom(image, pages, pad, r, x);
      assert at(p, y) == r;
    }
  }

  lemma OrderKept(pages: seq<Page>, pad: nat, at: (int, int) -> int)
    requires AllValid(pages) && Places(pages, pad, at)
    ensures KeepsOrder(pages, at)
  {
    hide Page.Valid, Page.Dot, Page.Dithered, FirstInk, Start, HasDot;
    forall p, y, q, z | 0 <= p <= q < |pages| && 0 <= y < pages[p].height && 0 <= z < pages[q].height
                        && HasDot(pages[p], y) && HasDot(pages[q], z)
      ensures (p < q ==> at(p, y) < at(q, z)) && (p == q ==> at(q, z) - at(p, y) == z - y)
    {
      if p < q { LaterPage(pages, p, y, q, z); }
    }
  }

  lemma DotShows(image: seq<Row>, pages: seq<Page>, pad: nat, p: nat, y: nat, x: nat)
    requires AllValid(pages) && Frames(image, ReceiptRows(pages), pad)
    requires p < |pages| && y < pages[p].height && x < pages[p].width && pages[p].Dot(y, x)
    ensures
      var r := pad + Start(pages, p) + y - FirstInk(pages[p].Dithered());
      0 <= r < |image| && x < 8 * |image[r]| && Ink(image[r], x)
  {
    hide Page.Valid, Page.IsInk, Page.DitheredRow, Page.Dithered, Ink, HasInk, ReceiptRows, Part, FirstInk, Start;
    PartIs(pages[p]);
    assert HasDot(pages[p], y);
    var i := y - FirstInk(pages[p].Dithered());
    PageAt(pages, p, i);
    assert image[pad + (Start(pages, p) + i)] == pages[p].DitheredRow(y);
  }

  lemma DotComesFrom(image: seq<Row>, pages: seq<Page>, pad: nat, r: nat, x: nat) returns (p: nat, y: nat)
    requires AllValid(pages) && Frames(image, ReceiptRows(pages), pad)
    requires r < |image| && x < 8 * |image[r]| && Ink(image[r], x)
    ensures p < |pages| && y < pages[p].height && pages[p].Dot(y, x)
    ensures r == pad + Start(pages, p) + y - FirstInk(pages[p].Dithered())
  {
    InkInside(image, ReceiptRows(pages), pad, r, x);
    hide *;
    p, y := RowComesFrom(pages, r - pad);
    ValidAt(pages, p);
    DotOfRow(pages[p], y, x);
  }

  lemma InkInside(image: seq<Row>, rows: seq<Row>, pad: nat, r: nat, x: nat)
    requires Frames(image, rows, pad) && r < |image| && x < 8 * |image[r]| && Ink(image[r], x)
    ensures pad <= r < pad + |rows| && image[r] == rows[r - pad]
  {
    hide Ink;
    assert HasInk(image[r]);
    if pad <= r < pad + |rows| { assert image[pad + (r - pad)] == rows[r - pad]; }
  }

  lemma DotOfRow(page: Page, y: nat, x: nat)
    requires page.Valid() && y < page.height && x < 8 * |page.DitheredRow(y)|
    ensures Ink(page.DitheredRow(y), x) <==> page.Dot(y, x)
  {
    hide Page.Valid, Page.DitheredRow, Page.Dot, Ink;
  }

  /** Every row of the receipt is a row of a page. */
  lemma RowComesFrom(pages: seq<Page>, k: nat) returns (p: nat, y: nat)
    requires AllValid(pages) && k < |ReceiptRows(pages)|
    ensures p < |pages| && y < pages[p].height && ReceiptRows(pages)[k] == pages[p].DitheredRow(y)
    ensures k == Start(pages, p) + y - FirstInk(pages[p].Dithered())
  {
    hide *;
    StartOfAll(pages);
    p := RowFrom(pages, |pages|, k);
    ValidAt(pages, p);
    var i := k - Start(pages, p);
    PartRow(pages[p], i);
    PageAt(pages, p, i);
    y := FirstInk(pages[p].Dithered()) + i;
  }

  lemma ValidAt(pages: seq<Page>, p: nat)
    requires AllValid(pages) && p < |pages|
    ensures pages[p].Valid()
  {
  }

  lemma StartOfAll(pages: seq<Page>)
    requires AllValid(pages)
    ensures Start(pages, |pages|) == |ReceiptRows(pages)|
  {
    assert pages[..|pages|] == pages;
  }

  lemma PartRow(page: Page, i: nat)
    requires page.Valid() && i < |Part(page)|
    ensures var y := FirstInk(page.Dithered()) + i; y < page.height && Part(page)[i] == page.DitheredRow(y)
  {
    hide Part, FirstInk, Page.Dithered, Page.DitheredRow, HasDot;
    PartIs(page);
    var row := Part(page)[i];
  }

  lemma LaterPage(pages: seq<Page>, p: nat, y: nat, q: nat, z: nat)
    requires AllValid(pages) && p < q < |pages|
    requires y < pages[p].height && z < pages[q].height && HasDot(pages[p], y) && HasDot(pages[q], z)
    ensures Start(pages, p) + y - FirstInk(pages[p].Dithered()) < Start(pages, q) + z - FirstInk(pages[q].Dithered())
  {
    PartIs(pages[p]);
    PartIs(pages[q]);
    StartNext(pages, p);
    RowsGrow(pages, p + 1, q);
    hide ReceiptRows, Part, FirstInk, HasDot;
  }
}
