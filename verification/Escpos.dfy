/** The ESC/POS commands a receipt is sent in, their encoding, and a decoder that reads them
    back by their lengths alone, the way a printer does. */
module Escpos {
  import opened Bits
  import opened Options

  datatype Command =
    | Init
    | Raster(width: nat, rows: seq<Row>)
    | Feed(lines: nat)
    | Cut

  const ESC: Byte := 0x1b
  const GS: Byte := 0x1d
  const ROWS_PER_BLOCK := 24

  predicate SameWidth(rows: seq<Row>, width: nat) {
    forall i :: 0 <= i < |rows| ==> |rows[i]| == width
  }

  /** Commands whose numbers fit their fields. */
  predicate Fits(c: Command) {
    match c
    case Raster(width, rows) => width < 65536 && |rows| < 65536 && SameWidth(rows, width)
    case Feed(lines) => lines < 256
    case _ => true
  }

  predicate AllFit(cs: seq<Command>) {
    forall i :: 0 <= i < |cs| ==> Fits(cs[i])
  }

  function Concat(rows: seq<Row>): (data: seq<Byte>) {
    if rows == [] then [] else rows[0] + Concat(rows[1..])
  }

  function EncodeCommand(c: Command): seq<Byte>
    requires Fits(c)
  {
    match c
    case Init => [0x1b, 0x40]
    case Raster(width, rows) =>
      [0x1d, 0x76, 0x30, 0, width % 256, width / 256, |rows| % 256, |rows| / 256] + Concat(rows)
    case Feed(lines) => [0x1b, 0x64, lines]
    case Cut => [0x1d, 0x56, 1]
  }

  function EncodeAll(cs: seq<Command>): seq<Byte>
    requires AllFit(cs)
  {
    if cs == [] then [] else EncodeCommand(cs[0]) + EncodeAll(cs[1..])
  }

  // ---- the decoder -----------------------------------------------------------------------

  /** The first `count` rows of `width` bytes, and what follows them. */
  function TakeRows(data: seq<Byte>, width: nat, count: nat): Option<(seq<Row>, seq<Byte>)> {
    if count == 0 then Some(([], data))
    else if |data| < width then None
    else match TakeRows(data[width..], width, count - 1)
      case None => None
      case Some((rows, rest)) => Some(([data[..width]] + rows, rest))
  }

  lemma {:induction false} TakeRowsShrinks(data: seq<Byte>, width: nat, count: nat)
    ensures TakeRows(data, width, count).Some? ==> |TakeRows(data, width, count).value.1| <= |data|
    decreases count
  {
    if count > 0 && |data| >= width { TakeRowsShrinks(data[width..], width, count - 1); }
  }

  function Word(low: Byte, high: Byte): nat { (low as int) + 256 * (high as int) }

  /** One command off the front. */
  function DecodeOne(data: seq<Byte>): (r: Option<(Command, seq<Byte>)>)
    ensures r.Some? ==> |r.value.1| < |data|
  {
    if |data| >= 2 && data[0] == 0x1b && data[1] == 0x40 then Some((Init, data[2..]))
    else if |data| >= 3 && data[0] == 0x1b && data[1] == 0x64 then Some((Feed(data[2]), data[3..]))
    else if |data| >= 3 && data[0] == 0x1d && data[1] == 0x56 && data[2] == 1 then Some((Cut, data[3..]))
    else if |data| >= 8 && data[0] == 0x1d && data[1] == 0x76 && data[2] == 0x30 && data[3] == 0 then
      var width, count := Word(data[4], data[5]), Word(data[6], data[7]);
      TakeRowsShrinks(data[8..], width, count);
      match TakeRows(data[8..], width, count)
      case None => None
      case Some((rows, rest)) => Some((Raster(width, rows), rest))
    else None
  }

  function Decode(data: seq<Byte>): Option<seq<Command>>
    decreases |data|
  {
    if data == [] then Some([])
    else match DecodeOne(data)
      case None => None
      case Some((c, rest)) =>
        match Decode(rest)
        case None => None
        case Some(cs) => Some([c] + cs)
  }

  // ---- the round trip ----------------------------------------------------------------------

  lemma {:induction false} TakeRowsConcat(rows: seq<Row>, width: nat, rest: seq<Byte>)
    requires SameWidth(rows, width)
    ensures TakeRows(Concat(rows) + rest, width, |rows|) == Some((rows, rest))
    decreases |rows|
  {
    if rows == [] {
      assert Concat(rows) + rest == rest;
    } else {
      var row, more := rows[0], rows[1..];
      assert Concat(rows) == row + Concat(more);
      hide Concat;
      TakeRowsConcat(more, width, rest);
      assert Concat(rows) + rest == row + (Concat(more) + rest);
      TakeOneRow(row, Concat(more) + rest, width, |more|);
      assert [row] + more == rows;
    }
  }

  lemma TakeOneRow(row: Row, rest: seq<Byte>, width: nat, count: nat)
    requires |row| == width && TakeRows(rest, width, count).Some?
    ensures
      var (rows, left) := TakeRows(rest, width, count).value;
      TakeRows(row + rest, width, count + 1) == Some(([row] + rows, left))
  {
    assert (row + rest)[width..] == rest && (row + rest)[..width] == row;
  }

  lemma DecodeRaster(c: Command, rest: seq<Byte>)
    requires Fits(c) && c.Raster?
    ensures DecodeOne(EncodeCommand(c) + rest) == Some((c, rest))
  {
    hide Concat, TakeRows;
    var head: seq<Byte> := [0x1d, 0x76, 0x30, 0, c.width % 256, c.width / 256, |c.rows| % 256, |c.rows| / 256];
    var data := EncodeCommand(c) + rest;
    assert data == head + (Concat(c.rows) + rest);
    assert data[..8] == head;
    assert data[8..] == Concat(c.rows) + rest;
    assert Word(head[4], head[5]) == c.width && Word(head[6], head[7]) == |c.rows|;
    TakeRowsConcat(c.rows, c.width, rest);
  }

  lemma DecodeOneEncoded(c: Command, rest: seq<Byte>)
    requires Fits(c)
    ensures DecodeOne(EncodeCommand(c) + rest) == Some((c, rest))
  {
    hide Concat, TakeRows;
    var data := EncodeCommand(c) + rest;
    match c
    case Init => assert data[2..] == rest;
    case Feed(_) => assert data[3..] == rest;
    case Cut => assert data[3..] == rest;
    case Raster(_, _) => DecodeRaster(c, rest);
  }

  /** Whatever bytes the image holds, the commands come back as they were sent. */
  lemma {:induction false} DecodeEncoded(cs: seq<Command>)
    requires AllFit(cs)
    ensures Decode(EncodeAll(cs)) == Some(cs)
    decreases |cs|
  {
    if cs != [] {
      DecodeEncoded(cs[1..]);
      DecodeOneEncoded(cs[0], EncodeAll(cs[1..]));
      assert [cs[0]] + cs[1..] == cs;
    }
  }

  // ---- a job -------------------------------------------------------------------------------

  function Smaller(a: nat, b: nat): nat { if a < b then a else b }

  /** The image in strips of at most 24 rows. */
  function Blocks(rows: seq<Row>, width: nat): (cs: seq<Command>)
    requires SameWidth(rows, width)
    decreases |rows|
  {
    if rows == [] then []
    else var n := Smaller(|rows|, ROWS_PER_BLOCK); [Raster(width, rows[..n])] + Blocks(rows[n..], width)
  }

  lemma {:induction false} BlocksAre(rows: seq<Row>, width: nat)
    requires SameWidth(rows, width)
    ensures
      var cs := Blocks(rows, width);
      && |cs| == (|rows| + 23) / 24
      && (forall i :: 0 <= i < |cs| ==>
            cs[i].Raster? && cs[i].width == width && 1 <= |cs[i].rows| <= 24 && SameWidth(cs[i].rows, width))
      && Image(cs) == rows
    decreases |rows|
  {
    if rows != [] {
      var n := Smaller(|rows|, ROWS_PER_BLOCK);
      BlocksAre(rows[n..], width);
      assert Blocks(rows, width)[1..] == Blocks(rows[n..], width);
      assert rows[..n] + rows[n..] == rows;
    }
  }

  /** All rows a sequence of commands prints, in order. */
  function Image(cs: seq<Command>): seq<Row> {
    if cs == [] then [] else (if cs[0].Raster? then cs[0].rows else []) + Image(cs[1..])
  }

  function Repeat(row: Row, n: int): (rows: seq<Row>)
    ensures |rows| == (if n < 0 then 0 else n) && forall i :: 0 <= i < |rows| ==> rows[i] == row
  {
    if n <= 0 then [] else [row] + Repeat(row, n - 1)
  }

  function Blank(width: nat): Row { seq(width, _ => 0) }

  function Padded(rows: seq<Row>, pad: int): (all: seq<Row>)
    requires rows != []
  {
    Repeat(Blank(|rows[0]|), pad) + rows + Repeat(Blank(|rows[0]|), pad)
  }

  /** The arguments the encoder turns into bytes without raising ValueError. */
  predicate Encodable(rows: seq<Row>, feed: int) {
    rows != [] ==> |rows[0]| < 65536 && feed >= 0
  }

  function Tail(feed: int, cut: bool): seq<Command>
    requires feed >= 0
  {
    (if feed != 0 then [Feed(Smaller(255, feed))] else []) + (if cut then [Cut] else [])
  }

  function JobCommands(rows: seq<Row>, pad: int, feed: int, cut: bool): (cs: seq<Command>)
    requires (rows != [] ==> SameWidth(rows, |rows[0]|)) && Encodable(rows, feed)
  {
    if rows == [] then []
    else PaddedIs(rows, pad); [Init] + Blocks(Padded(rows, pad), |rows[0]|) + Tail(feed, cut)
  }

  lemma PaddedIs(rows: seq<Row>, pad: int)
    requires rows != [] && SameWidth(rows, |rows[0]|)
    ensures SameWidth(Padded(rows, pad), |rows[0]|) && Padded(rows, pad) != []
  {
    var edge := Repeat(Blank(|rows[0]|), pad);
    forall i | 0 <= i < |Padded(rows, pad)| ensures |Padded(rows, pad)[i]| == |rows[0]| {
      if i < |edge| {
      } else if i < |edge| + |rows| {
        assert Padded(rows, pad)[i] == rows[i - |edge|];
      } else {
        assert Padded(rows, pad)[i] == edge[i - |edge| - |rows|];
      }
    }
  }

  lemma {:induction false} EncodeAllSplits(a: seq<Command>, b: seq<Command>)
    requires AllFit(a)
    requires AllFit(b)
    ensures AllFit(a + b) && EncodeAll(a + b) == EncodeAll(a) + EncodeAll(b)
    decreases |a|
  {
    hide Fits, EncodeCommand;
    if a == [] {
      assert a + b == b;
    } else {
      EncodeAllSplits(a[1..], b);
      assert (a + b)[1..] == a[1..] + b;
      assert EncodeAll(a + b) == EncodeCommand(a[0]) + (EncodeAll(a[1..]) + EncodeAll(b));
    }
  }

  /** The block loop: each pass appends the header and the rows of one strip. */
  method AppendBlocks(rows: seq<Row>, width: nat) returns (out: seq<Byte>)
    requires SameWidth(rows, width) && width < 65536
    ensures AllFit(Blocks(rows, width)) && out == EncodeAll(Blocks(rows, width))
  {
    hide Blocks, EncodeAll, BlocksFrom, AllFit, Concat, EncodeCommand;
    out := [];
    var start := 0;
    BlocksStart(rows, width);
    while start < |rows|
      invariant 0 <= start
      invariant BlocksFrom(rows, width, start, out)
    {
      var stop := if start + ROWS_PER_BLOCK <= |rows| then start + ROWS_PER_BLOCK else |rows|;
      var block := rows[start..stop];
      var data := Joined(block);
      BlockStep(rows, width, start, stop, out);
      StripIs(out, width, block);
      out := out + [GS, 0x76, 0x30, 0];
      out := out + [width % 256, width / 256, |block| % 256, |block| / 256];
      out := out + data;
      start := start + ROWS_PER_BLOCK;
    }
    BlocksDone(rows, width, start, out);
  }

  /** `out` holds the strips before row `start`. */
  ghost predicate BlocksFrom(rows: seq<Row>, width: nat, start: nat, out: seq<Byte>)
    requires SameWidth(rows, width) && width < 65536
  {
    var rest := if start <= |rows| then rows[start..] else [];
    && SameWidth(rest, width) && AllFit(Blocks(rest, width)) && AllFit(Blocks(rows, width))
    && out + EncodeAll(Blocks(rest, width)) == EncodeAll(Blocks(rows, width))
  }

  lemma BlocksFit(rows: seq<Row>, width: nat)
    requires SameWidth(rows, width) && width < 65536
    ensures AllFit(Blocks(rows, width))
  {
    BlocksAre(rows, width);
  }

  lemma BlocksStart(rows: seq<Row>, width: nat)
    requires SameWidth(rows, width) && width < 65536
    ensures BlocksFrom(rows, width, 0, [])
  {
    BlocksFit(rows, width);
    assert rows[0..] == rows;
  }

  lemma BlocksDone(rows: seq<Row>, width: nat, start: nat, out: seq<Byte>)
    requires SameWidth(rows, width) && width < 65536 && |rows| <= start && BlocksFrom(rows, width, start, out)
    ensures AllFit(Blocks(rows, width)) && out == EncodeAll(Blocks(rows, width))
  {
  }

  lemma BlockStep(rows: seq<Row>, width: nat, start: nat, stop: nat, out: seq<Byte>)
    requires SameWidth(rows, width) && width < 65536 && start < |rows| && BlocksFrom(rows, width, start, out)
    requires stop == if start + ROWS_PER_BLOCK <= |rows| then start + ROWS_PER_BLOCK else |rows|
    ensures Fits(Raster(width, rows[start..stop]))
    ensures BlocksFrom(rows, width, start + ROWS_PER_BLOCK, out + EncodeCommand(Raster(width, rows[start..stop])))
  {
    hide Blocks, EncodeAll, AllFit, EncodeCommand;
    var left, block := rows[start..], rows[start..stop];
    var n := Smaller(|left|, ROWS_PER_BLOCK);
    var rest := if start + ROWS_PER_BLOCK <= |rows| then rows[start + ROWS_PER_BLOCK..] else [];
    assert block == left[..n] && left[n..] == rest;
    FirstBlock(left, width, n);
    ConcatAssociates(out, EncodeCommand(Raster(width, block)), EncodeAll(Blocks(rest, width)));
  }

  /** The encoding of an image begins with that of its first strip. */
  lemma FirstBlock(left: seq<Row>, width: nat, n: nat)
    requires left != [] && SameWidth(left, width) && width < 65536 && n == Smaller(|left|, ROWS_PER_BLOCK)
    ensures Fits(Raster(width, left[..n])) && AllFit(Blocks(left, width)) && AllFit(Blocks(left[n..], width))
    ensures EncodeAll(Blocks(left, width)) ==
      EncodeCommand(Raster(width, left[..n])) + EncodeAll(Blocks(left[n..], width))
  {
    hide EncodeCommand;
    BlocksFit(left, width);
    BlocksFit(left[n..], width);
    assert Blocks(left, width) == [Raster(width, left[..n])] + Blocks(left[n..], width);
    hide Blocks;
    OneMoreCommand(Raster(width, left[..n]), Blocks(left[n..], width));
  }

  /** What one pass of the block loop appends. */
  lemma StripIs(out: seq<Byte>, width: nat, block: seq<Row>)
    requires Fits(Raster(width, block))
    ensures out + [GS, 0x76, 0x30, 0] + [width % 256, width / 256, |block| % 256, |block| / 256] + Concat(block)
      == out + EncodeCommand(Raster(width, block))
  {
    hide Concat;
    RasterHeader(width % 256, width / 256, |block| % 256, |block| / 256);
    Strip(out, [GS, 0x76, 0x30, 0], [width % 256, width / 256, |block| % 256, |block| / 256], Concat(block));
  }

  lemma RasterHeader(a: Byte, b: Byte, c: Byte, d: Byte)
    ensures [GS, 0x76, 0x30, 0] + [a, b, c, d] == [GS, 0x76, 0x30, 0, a, b, c, d]
  {
  }

  lemma Strip(out: seq<Byte>, a: seq<Byte>, b: seq<Byte>, data: seq<Byte>)
    ensures out + a + b + data == out + (a + b + data)
  {
    ConcatAssociates(out, a, b);
    ConcatAssociates(out, a + b, data);
  }

  lemma OneMoreCommand(c: Command, cs: seq<Command>)
    requires Fits(c) && AllFit(cs)
    ensures AllFit([c] + cs) && EncodeAll([c] + cs) == EncodeCommand(c) + EncodeAll(cs)
  {
    hide Fits, EncodeCommand;
    assert ([c] + cs)[1..] == cs;
  }

  lemma NoCommand()
    ensures EncodeAll([]) == []
  {
  }

  method Joined(rows: seq<Row>) returns (data: seq<Byte>)
    ensures data == Concat(rows)
  {
    data := [];
    var i := 0;
    while i < |rows|
      invariant 0 <= i <= |rows|
      invariant data + Concat(rows[i..]) == Concat(rows)
    {
      assert rows[i..][0] == rows[i] && rows[i..][1..] == rows[i + 1..];
      data := data + rows[i];
      i := i + 1;
    }
    assert rows[i..] == [];
  }

  datatype Built = Bytes(data: seq<Byte>) | ValueError

  /** `build_escpos_job`: init, image blocks, feed and cut, or nothing for no rows. */
  method BuildEscposJob(rows: seq<Row>, pad: int, feed: int, cut: bool) returns (r: Built)
    requires rows != [] ==> SameWidth(rows, |rows[0]|)
    ensures r.Bytes? <==> rows == [] || (|rows[0]| < 65536 && feed >= 0)
    ensures rows == [] ==> r == Bytes([])
    ensures r.Bytes? && rows != [] ==> PrintsJob(r.data, rows, pad, feed, cut)
    ensures r.Bytes? ==> AllFit(JobCommands(rows, pad, feed, cut)) && r.data == EncodeAll(JobCommands(rows, pad, feed, cut))
  {
    if rows == [] {
      return Bytes([]);
    }
    hide EncodeAll, Blocks, Repeat, Tail, AllFit, PrintsJob;
    var width := |rows[0]|;
    var blank := Blank(width);
    var all := Repeat(blank, pad) + rows + Repeat(blank, pad);
    PaddedIs(rows, pad);
    if width >= 65536 {
      return ValueError;
    }
    var out := [ESC, 0x40];
    var image := AppendBlocks(all, width);
    out := out + image;
    if feed != 0 {
      var lines := if feed < 255 then feed else 255;
      if lines < 0 {
        return ValueError;
      }
      out := out + [ESC, 0x64, lines];
    }
    if cut {
      out := out + [GS, 0x56, 1];
    }
    JobBytes(rows, pad, feed, cut);
    assert out == EncodeAll(JobCommands(rows, pad, feed, cut));
    JobPrints(rows, pad, feed, cut);
    return Bytes(out);
  }

  lemma JobBytes(rows: seq<Row>, pad: int, feed: int, cut: bool)
    requires rows != [] && SameWidth(rows, |rows[0]|) && Encodable(rows, feed)
    requires SameWidth(Padded(rows, pad), |rows[0]|)
    requires AllFit(Blocks(Padded(rows, pad), |rows[0]|))
    ensures var cs := JobCommands(rows, pad, feed, cut);
      && AllFit(cs)
      && EncodeAll(cs) == [ESC, 0x40] + EncodeAll(Blocks(Padded(rows, pad), |rows[0]|))
           + (if feed != 0 then [ESC, 0x64, Smaller(255, feed)] else []) + (if cut then [GS, 0x56, 1] else [])
  {
    hide EncodeAll, AllFit, Blocks, Padded, Tail;
    var bs := Blocks(Padded(rows, pad), |rows[0]|);
    OneMoreCommand(Init, bs);
    TailBytes(feed, cut);
    EncodeAllSplits([Init] + bs, Tail(feed, cut));
    ConcatAssociates([ESC, 0x40] + EncodeAll(bs), FeedBytes(feed), CutBytes(cut));
  }

  function FeedBytes(feed: int): seq<Byte>
    requires feed >= 0
  {
    if feed != 0 then [ESC, 0x64, Smaller(255, feed)] else []
  }

  function CutBytes(cut: bool): seq<Byte> { if cut then [GS, 0x56, 1] else [] }

  lemma TailBytes(feed: int, cut: bool)
    requires feed >= 0
    ensures AllFit(Tail(feed, cut)) && EncodeAll(Tail(feed, cut)) == FeedBytes(feed) + CutBytes(cut)
  {
    hide EncodeAll;
    var f := if feed != 0 then [Feed(Smaller(255, feed))] else [];
    var c := if cut then [Cut] else [];
    NoCommand();
    if feed != 0 { OneMoreCommand(Feed(Smaller(255, feed)), []); assert f + [] == f; }
    if cut { OneMoreCommand(Cut, []); assert c + [] == c; }
    EncodeAllSplits(f, c);
  }

  // ---- the round trip of a job -----------------------------------------------------------

  /** `rows` with `pad` blank rows of the same width above and as many below. */
  ghost predicate Framed(image: seq<Row>, rows: seq<Row>, pad: nat)
    requires rows != []
  {
    && |image| == pad + |rows| + pad
    && (forall i :: 0 <= i < |rows| ==> image[pad + i] == rows[i])
    && (forall i :: 0 <= i < |image| && !(pad <= i < pad + |rows|) ==>
          |image[i]| == |rows[0]| && forall k :: 0 <= k < |image[i]| ==> image[i][k] == 0)
  }

  lemma PaddedIsFramed(rows: seq<Row>, pad: int)
    requires rows != []
    ensures Framed(Padded(rows, pad), rows, if pad < 0 then 0 else pad)
  {
    var edge := Repeat(Blank(|rows[0]|), pad);
    var all := Padded(rows, pad);
    assert forall i :: 0 <= i < |edge| ==> all[i] == edge[i] && all[|edge| + |rows| + i] == edge[i];
    forall i | 0 <= i < |all| && !(|edge| <= i < |edge| + |rows|) ensures all[i] == Blank(|rows[0]|) {
      if i >= |edge| { assert all[i] == edge[i - |edge| - |rows|]; }
    }
  }

  /** What a printer does with a job: reset, print `rows` between `pad` blank rows above and
      below, in ceil(n/24) strips of 1 to 24 rows, feed at most 255 lines, and cut if asked. */
  ghost predicate IsJob(cs: seq<Command>, rows: seq<Row>, pad: int, feed: int, cut: bool)
    requires rows != [] && feed >= 0
  {
    var edge := if pad < 0 then 0 else pad;
    var strips := (edge + |rows| + edge + 23) / 24;
    var tail := (if feed == 0 then [] else [Feed(if feed < 255 then feed else 255)]) + (if cut then [Cut] else []);
    && |cs| == 1 + strips + |tail|
    && cs[0] == Init
    && (forall i :: 0 < i <= strips ==> cs[i].Raster? && cs[i].width == |rows[0]| && 1 <= |cs[i].rows| <= 24)
    && cs[1 + strips..] == tail
    && Framed(Image(cs), rows, edge)
  }

  lemma {:induction false} ImageConcat(a: seq<Command>, b: seq<Command>)
    ensures Image(a + b) == Image(a) + Image(b)
    decreases |a|
  {
    if a == [] {
      assert a + b == b;
    } else {
      var first := if a[0].Raster? then a[0].rows else [];
      assert (a + b)[1..] == a[1..] + b;
      assert Image(a + b) == first + Image(a[1..] + b) && Image(a) == first + Image(a[1..]);
      hide Image;
      ImageConcat(a[1..], b);
      ConcatAssociates(first, Image(a[1..]), Image(b));
    }
  }

  lemma TailPrintsNothing(feed: int, cut: bool)
    requires feed >= 0
    ensures Image(Tail(feed, cut)) == []
  {
    var f := if feed != 0 then [Feed(Smaller(255, feed))] else [];
    var c := if cut then [Cut] else [];
    ImageConcat(f, c);
  }

  /** Encoder round trip: for every image of equal rows that fit, whatever their bytes, decoding
      the job gives back the padded image, the feed capped at 255, and the cut. */
  lemma JobRoundTrip(rows: seq<Row>, pad: int, feed: int, cut: bool)
    requires rows != [] && SameWidth(rows, |rows[0]|) && Encodable(rows, feed)
    ensures
      var cs := JobCommands(rows, pad, feed, cut);
      AllFit(cs) && Decode(EncodeAll(cs)) == Some(cs) && IsJob(cs, rows, pad, feed, cut)
  {
    hide Decode, EncodeAll, Blocks, Padded, IsJob, Tail;
    PaddedIs(rows, pad);
    BlocksFit(Padded(rows, pad), |rows[0]|);
    JobBytes(rows, pad, feed, cut);
    DecodeEncoded(JobCommands(rows, pad, feed, cut));
    JobIsJob(rows, pad, feed, cut);
  }

  /** The bytes make a printer do that. */
  ghost predicate PrintsJob(data: seq<Byte>, rows: seq<Row>, pad: int, feed: int, cut: bool)
    requires rows != [] && feed >= 0
  {
    exists cs :: Decode(data) == Some(cs) && IsJob(cs, rows, pad, feed, cut)
  }

  lemma JobPrints(rows: seq<Row>, pad: int, feed: int, cut: bool)
    requires rows != [] && SameWidth(rows, |rows[0]|) && Encodable(rows, feed)
    requires AllFit(JobCommands(rows, pad, feed, cut))
    ensures PrintsJob(EncodeAll(JobCommands(rows, pad, feed, cut)), rows, pad, feed, cut)
  {
    hide Decode, IsJob, EncodeAll, JobCommands;
    JobRoundTrip(rows, pad, feed, cut);
  }

  lemma JobIsJob(rows: seq<Row>, pad: int, feed: int, cut: bool)
    requires rows != [] && SameWidth(rows, |rows[0]|) && Encodable(rows, feed)
    ensures IsJob(JobCommands(rows, pad, feed, cut), rows, pad, feed, cut)
  {
    hide Blocks, Padded, Image, Framed;
    PaddedIs(rows, pad);
    PaddedIsFramed(rows, pad);
    PaddedLength(rows, pad);
    var blocks := Blocks(Padded(rows, pad), |rows[0]|);
    BlocksAre(Padded(rows, pad), |rows[0]|);
    ImageOfJob(blocks, feed, cut);
    StripsAre(blocks, |rows[0]|, feed, cut);
  }

  /** The commands of a job one by one. */
  lemma StripsAre(blocks: seq<Command>, width: nat, feed: int, cut: bool)
    requires feed >= 0
    requires forall i :: 0 <= i < |blocks| ==> blocks[i].Raster? && blocks[i].width == width && 1 <= |blocks[i].rows| <= 24
    ensures
      var cs := [Init] + blocks + Tail(feed, cut);
      && |cs| == 1 + |blocks| + |Tail(feed, cut)| && cs[0] == Init && cs[1 + |blocks|..] == Tail(feed, cut)
      && forall i :: 0 < i <= |blocks| ==> cs[i].Raster? && cs[i].width == width && 1 <= |cs[i].rows| <= 24
  {
    hide Tail;
    JobShape(blocks, Tail(feed, cut));
  }

  lemma PaddedLength(rows: seq<Row>, pad: int)
    requires rows != []
    ensures var edge := if pad < 0 then 0 else pad; |Padded(rows, pad)| == edge + |rows| + edge
  {
  }

  lemma ImageOfJob(blocks: seq<Command>, feed: int, cut: bool)
    requires feed >= 0
    ensures Image([Init] + blocks + Tail(feed, cut)) == Image(blocks)
  {
    assert Image([Init]) == [];
    hide Image, Tail;
    ImageConcat([Init], blocks);
    ImageConcat([Init] + blocks, Tail(feed, cut));
    TailPrintsNothing(feed, cut);
    assert [] + Image(blocks) + [] == Image(blocks);
  }

  lemma JobShape(blocks: seq<Command>, tail: seq<Command>)
    ensures
      var cs := [Init] + blocks + tail;
      && |cs| == 1 + |blocks| + |tail| && cs[0] == Init && cs[1 + |blocks|..] == tail
      && forall i :: 0 < i <= |blocks| ==> cs[i] == blocks[i - 1]
  {
  }
}
