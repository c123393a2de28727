/** The choice of a paper size for a receipt on a roll printer, in exact arithmetic. */
module RollMedia {
  import opened Options
  import opened Rounding

  /** A PageSize choice of the driver, and a page, in points. */
  datatype Size = Size(choice: string, width: real, height: real)
  datatype Paper = Paper(width: real, height: real)

  const ROLL_RATIO := 3.0

  predicate IsRoll(size: Size) {
    size.width > 0.0 && size.height / size.width >= ROLL_RATIO
  }

  function Least(a: real, b: real): real { if a < b then a else b }

  function Most(a: real, b: real): real { if a < b then b else a }

  /** The length of the page once scaled down, never up, to a paper width. */
  function ScaledLength(page: Paper, width: real): real
    requires page.width > 0.0
  {
    page.height * Least(1.0, width / page.width)
  }

  /** Scaling keeps the shape of the page: its length is to the page's as the paper's width is to
      the page's, if the paper is the narrower, and else it stays. */
  lemma ScalingKeepsShape(page: Paper, width: real)
    requires page.width > 0.0
    ensures ScaledLength(page, width) * page.width == page.height * if width < page.width then width else page.width
  {
    var ratio := width / page.width;
    assert ratio * page.width == width;
    if width < page.width {
      Divides(ratio, page.width, width);
      assert page.height * ratio * page.width == page.height * (ratio * page.width);
    } else {
      DividesOut(ratio, page.width, width);
    }
  }

  lemma Divides(ratio: real, a: real, b: real)
    requires a > 0.0 && ratio * a == b && b < a
    ensures ratio < 1.0
  {
  }

  lemma DividesOut(ratio: real, a: real, b: real)
    requires a > 0.0 && ratio * a == b && b >= a
    ensures ratio >= 1.0
  {
  }

  predicate FitsOn(page: Paper, size: Size)
    requires page.width > 0.0
  {
    ScaledLength(page, size.width) <= size.height
  }

  /** A roll, in products: at least three times as long as it is wide. */
  predicate LongRoll(size: Size) {
    size.width > 0.0 && size.height >= 3.0 * size.width
  }

  lemma RollIsLong(size: Size)
    ensures IsRoll(size) <==> LongRoll(size)
  {
    if size.width > 0.0 {
      var ratio := size.height / size.width;
      assert ratio * size.width == size.height;
      if ratio >= 3.0 { assert (ratio - 3.0) * size.width >= 0.0; } else { assert (3.0 - ratio) * size.width > 0.0; }
    }
  }

  /** The page, shrunk to the paper's width if it is wider, is no longer than the paper. */
  predicate Holds(size: Size, page: Paper) {
    page.height * (if size.width < page.width then size.width else page.width) <= size.height * page.width
  }

  lemma FitsIsHolds(page: Paper, size: Size)
    requires page.width > 0.0
    ensures FitsOn(page, size) <==> Holds(size, page)
  {
    ScalingKeepsShape(page, size.width);
    var length := ScaledLength(page, size.width);
    if length <= size.height {
      assert (size.height - length) * page.width >= 0.0;
    } else {
      assert (length - size.height) * page.width > 0.0;
    }
  }

  // ---- roll_media_for ------------------------------------------------------------------------

  /** Shorter first; sizes of equal length keep the order of the driver. */
  predicate Before(sizes: seq<Size>, i: nat, k: nat)
    requires i < |sizes| && k < |sizes|
  {
    sizes[i].height < sizes[k].height || (sizes[i].height == sizes[k].height && i < k)
  }

  ghost predicate InOrder(sizes: seq<Size>, ids: seq<nat>) {
    && (forall a :: 0 <= a < |ids| ==> ids[a] < |sizes|)
    && (forall a, b :: 0 <= a < b < |ids| ==> Before(sizes, ids[a], ids[b]))
  }

  /** The place of a new size among sizes already in order: behind those of equal length. */
  method Place(sizes: seq<Size>, ids: seq<nat>, x: nat) returns (at: nat)
    requires InOrder(sizes, ids) && x < |sizes| && forall a :: 0 <= a < |ids| ==> ids[a] < x
    ensures at <= |ids|
    ensures forall a :: 0 <= a < at ==> Before(sizes, ids[a], x)
    ensures forall a :: at <= a < |ids| ==> Before(sizes, x, ids[a])
  {
    at := |ids|;
    while at > 0 && sizes[x].height < sizes[ids[at - 1]].height
      invariant at <= |ids|
      invariant forall a :: at <= a < |ids| ==> Before(sizes, x, ids[a])
    {
      at := at - 1;
    }
    if at > 0 {
      forall a | 0 <= a < at ensures Before(sizes, ids[a], x) {
        if a < at - 1 { assert Before(sizes, ids[a], ids[at - 1]); }
      }
    }
  }

  /** `rolls` are the rolls among the first `n` sizes. */
  ghost predicate RollsBelow(sizes: seq<Size>, n: nat, rolls: seq<nat>)
    requires n <= |sizes|
  {
    forall i: nat :: i in rolls <==> i < n && IsRoll(sizes[i])
  }

  function Inserted(ids: seq<nat>, at: nat, x: nat): seq<nat>
    requires at <= |ids|
  {
    ids[..at] + [x] + ids[at..]
  }

  lemma InsertedHolds(ids: seq<nat>, at: nat, x: nat)
    requires at <= |ids|
    ensures forall i :: i in Inserted(ids, at, x) <==> i == x || i in ids
  {
    assert ids == ids[..at] + ids[at..];
  }

  lemma InsertedInOrder(sizes: seq<Size>, ids: seq<nat>, at: nat, x: nat)
    requires InOrder(sizes, ids) && x < |sizes| && at <= |ids|
    requires forall a :: 0 <= a < at ==> Before(sizes, ids[a], x)
    requires forall a :: at <= a < |ids| ==> Before(sizes, x, ids[a])
    ensures InOrder(sizes, Inserted(ids, at, x))
  {
    hide Before;
    var r := Inserted(ids, at, x);
    forall a | 0 <= a < |r| ensures r[a] < |sizes| {
      assert r[a] == if a < at then ids[a] else if a == at then x else ids[a - 1];
    }
    forall a, b | 0 <= a < b < |r| ensures Before(sizes, r[a], r[b]) {
      assert r[a] == if a < at then ids[a] else if a == at then x else ids[a - 1];
      assert r[b] == if b < at then ids[b] else if b == at then x else ids[b - 1];
    }
  }

  /** The roll sizes, sorted by length; the sort is stable. */
  method SortedRolls(sizes: seq<Size>) returns (rolls: seq<nat>)
    ensures InOrder(sizes, rolls)
    ensures RollsBelow(sizes, |sizes|, rolls)
  {
    hide IsRoll, Before;
    rolls := [];
    for i := 0 to |sizes|
      invariant InOrder(sizes, rolls)
      invariant RollsBelow(sizes, i, rolls)
    {
      if IsRoll(sizes[i]) {
        forall a | 0 <= a < |rolls| ensures rolls[a] < i { assert rolls[a] in rolls; }
        var at := Place(sizes, rolls, i);
        InsertedHolds(rolls, at, i);
        InsertedInOrder(sizes, rolls, at, i);
        rolls := Inserted(rolls, at, i);
      }
    }
  }

  /** Size `i` is the first among those that satisfy `p`: the shortest, and the driver's first
      of that length. */
  ghost predicate First(sizes: seq<Size>, i: nat, p: Size -> bool) {
    && i < |sizes| && p(sizes[i])
    && forall k :: 0 <= k < |sizes| && p(sizes[k]) ==> k == i || Before(sizes, i, k)
  }

  ghost predicate Last(sizes: seq<Size>, i: nat, p: Size -> bool) {
    && i < |sizes| && p(sizes[i])
    && forall k :: 0 <= k < |sizes| && p(sizes[k]) ==> k == i || Before(sizes, k, i)
  }

  /** The choice for rolls and fits told apart in one way or another. */
  ghost predicate ChosenBy(sizes: seq<Size>, i: nat, known: bool, roll: Size -> bool, fits: Size -> bool) {
    if !known then First(sizes, i, roll)
    else if exists k :: 0 <= k < |sizes| && fits(sizes[k]) then First(sizes, i, fits) else Last(sizes, i, roll)
  }

  /** For a page of no known width the shortest roll; else the shortest roll that holds it, or the
      longest if none does. */
  ghost predicate Chosen(sizes: seq<Size>, page: Option<Paper>, i: nat) {
    var known := page.Some? && page.value.width > 0.0;
    ChosenBy(sizes, i, known, LongRoll, (size: Size) => LongRoll(size) && known && Holds(size, page.value))
  }

  lemma SameChoice(sizes: seq<Size>, i: nat, known: bool, roll: Size -> bool, roll': Size -> bool,
                   fits: Size -> bool, fits': Size -> bool)
    requires ChosenBy(sizes, i, known, roll, fits)
    requires forall size :: roll(size) <==> roll'(size)
    requires known ==> forall size :: fits(size) <==> fits'(size)
    ensures ChosenBy(sizes, i, known, roll', fits')
  {
  }

  lemma ChosenIs(sizes: seq<Size>, page: Paper, i: nat)
    requires page.width > 0.0
    requires ChosenBy(sizes, i, true, IsRoll, (size: Size) => IsRoll(size) && FitsOn(page, size))
    ensures Chosen(sizes, Some(page), i)
  {
    hide ChosenBy, IsRoll, FitsOn, LongRoll, Holds;
    var fits := (size: Size) => IsRoll(size) && FitsOn(page, size);
    var fits' := (size: Size) => LongRoll(size) && true && Holds(size, page);
    forall size ensures (IsRoll(size) <==> LongRoll(size)) && (fits(size) <==> fits'(size)) {
      RollIsLong(size);
      FitsIsHolds(page, size);
    }
    SameChoice(sizes, i, true, IsRoll, LongRoll, fits, (size: Size) => LongRoll(size) && true && Holds(size, Some(page).value));
  }

  lemma UnknownChosenIs(sizes: seq<Size>, page: Option<Paper>, i: nat)
    requires page.None? || page.value.width <= 0.0
    requires First(sizes, i, IsRoll)
    ensures Chosen(sizes, page, i)
  {
    hide IsRoll, LongRoll, Holds;
    forall size ensures IsRoll(size) <==> LongRoll(size) { RollIsLong(size); }
  }

  /** `roll_media_for`: none if and only if there is no roll; for an unknown page the shortest
      roll; else the shortest roll the scaled page fits on, or the longest if it fits on none. */
  method RollMediaFor(sizes: seq<Size>, page: Option<Paper>) returns (r: Option<string>)
    ensures r.None? <==> forall k :: 0 <= k < |sizes| ==> !LongRoll(sizes[k])
    ensures r.Some? ==> exists i :: 0 <= i < |sizes| && r.value == sizes[i].choice && Chosen(sizes, page, i)
  {
    hide IsRoll, LongRoll, FitsOn, Chosen, First, ChosenBy, Before;
    forall k | 0 <= k < |sizes| ensures IsRoll(sizes[k]) <==> LongRoll(sizes[k]) { RollIsLong(sizes[k]); }
    var rolls := SortedRolls(sizes);
    if rolls == [] {
      forall k | 0 <= k < |sizes| ensures !IsRoll(sizes[k]) { assert k !in rolls; }
      return None;
    }
    assert rolls[0] in rolls && rolls[|rolls|-1] in rolls;
    if page.None? || page.value.width <= 0.0 {
      FirstInOrder(sizes, rolls);
      UnknownChosenIs(sizes, page, rolls[0]);
      return Some(sizes[rolls[0]].choice);
    }
    var j := 0;
    while j < |rolls|
      invariant 0 <= j <= |rolls|
      invariant forall a :: 0 <= a < j ==> !FitsOn(page.value, sizes[rolls[a]])
    {
      assert rolls[j] in rolls;
      if FitsOn(page.value, sizes[rolls[j]]) {
        FitInOrder(sizes, rolls, page.value, j);
        ChosenIs(sizes, page.value, rolls[j]);
        return Some(sizes[rolls[j]].choice);
      }
      j := j + 1;
    }
    LastInOrder(sizes, rolls, page.value);
    ChosenIs(sizes, page.value, rolls[|rolls|-1]);
    return Some(sizes[rolls[|rolls|-1]].choice);
  }

  ghost predicate AllRolls(sizes: seq<Size>, rolls: seq<nat>) {
    InOrder(sizes, rolls) && rolls != [] && forall i: nat :: i in rolls <==> i < |sizes| && IsRoll(sizes[i])
  }

  lemma FirstInOrder(sizes: seq<Size>, rolls: seq<nat>)
    requires AllRolls(sizes, rolls)
    ensures First(sizes, rolls[0], IsRoll)
  {
    assert rolls[0] in rolls;
    forall k | 0 <= k < |sizes| && IsRoll(sizes[k]) ensures k == rolls[0] || Before(sizes, rolls[0], k) {
      assert k in rolls;
      var a :| 0 <= a < |rolls| && rolls[a] == k;
    }
  }

  lemma FitInOrder(sizes: seq<Size>, rolls: seq<nat>, page: Paper, j: nat)
    requires AllRolls(sizes, rolls) && page.width > 0.0 && j < |rolls| && FitsOn(page, sizes[rolls[j]])
    requires forall a :: 0 <= a < j ==> !FitsOn(page, sizes[rolls[a]])
    ensures ChosenBy(sizes, rolls[j], true, IsRoll, (size: Size) => IsRoll(size) && FitsOn(page, size))
  {
    hide FitsOn, IsRoll;
    var fits := (size: Size) => IsRoll(size) && FitsOn(page, size);
    assert rolls[j] in rolls;
    assert fits(sizes[rolls[j]]);
    forall k | 0 <= k < |sizes| && fits(sizes[k]) ensures k == rolls[j] || Before(sizes, rolls[j], k) {
      assert k in rolls;
      var a :| 0 <= a < |rolls| && rolls[a] == k;
    }
  }

  lemma LastInOrder(sizes: seq<Size>, rolls: seq<nat>, page: Paper)
    requires AllRolls(sizes, rolls) && page.width > 0.0
    requires forall a :: 0 <= a < |rolls| ==> !FitsOn(page, sizes[rolls[a]])
    ensures ChosenBy(sizes, rolls[|rolls|-1], true, IsRoll, (size: Size) => IsRoll(size) && FitsOn(page, size))
  {
    hide FitsOn, IsRoll;
    var last := rolls[|rolls|-1];
    assert last in rolls;
    forall k | 0 <= k < |sizes| && IsRoll(sizes[k])
      ensures !FitsOn(page, sizes[k]) && (k == last || Before(sizes, k, last))
    {
      assert k in rolls;
      var a :| 0 <= a < |rolls| && rolls[a] == k;
    }
  }

  // ---- custom_roll_media -----------------------------------------------------------------------

  /** The driver's custom sizes: its widest paper and its range of lengths. */
  datatype Custom = Custom(maxWidth: real, minHeight: real, maxHeight: real)

  datatype Media = NoMedia | CustomSize(width: int, height: int) | ZeroDivisionError

  function CustomRollMedia(sizes: seq<Size>, custom: Option<Custom>, page: Option<Paper>): Media {
    if custom.None? || page.None? || page.value.width <= 0.0 then NoMedia
    else
      var c, p := custom.value, page.value;
      if exists i :: 0 <= i < |sizes| && IsRoll(sizes[i]) then CustomSizeFor(c, p)
      else if c.maxWidth == 0.0 then ZeroDivisionError
      else if c.maxHeight / c.maxWidth >= ROLL_RATIO then CustomSizeFor(c, p)
      else NoMedia
  }

  function CustomSizeFor(c: Custom, p: Paper): Media
    requires p.width > 0.0
  {
    CustomSize(RoundHalfEven(c.maxWidth), CustomLength(c, ScaledLength(p, c.maxWidth)))
  }

  function CustomLength(c: Custom, receipt: real): int {
    Ceil(Most(c.minHeight, Least(c.maxHeight, receipt)))
  }

  /** When there is a custom size: for a known page, if the driver has a roll or its custom sizes
      are one; a driver with neither a roll nor a width for its custom sizes makes the division
      fail. */
  lemma CustomMediaWhen(sizes: seq<Size>, c: Custom, page: Paper)
    ensures
      var m := CustomRollMedia(sizes, Some(c), Some(page));
      var roll := exists i :: 0 <= i < |sizes| && LongRoll(sizes[i]);
      && (m.ZeroDivisionError? <==> page.width > 0.0 && !roll && c.maxWidth == 0.0)
      && (c.maxWidth > 0.0 ==> (m.CustomSize? <==> page.width > 0.0 && (roll || c.maxHeight >= 3.0 * c.maxWidth)))
  {
    forall i | 0 <= i < |sizes| ensures IsRoll(sizes[i]) <==> LongRoll(sizes[i]) { RollIsLong(sizes[i]); }
    hide IsRoll, LongRoll;
    if c.maxWidth > 0.0 {
      var ratio := c.maxHeight / c.maxWidth;
      assert ratio * c.maxWidth == c.maxHeight;
      if ratio >= 3.0 { assert (ratio - 3.0) * c.maxWidth >= 0.0; } else { assert (3.0 - ratio) * c.maxWidth > 0.0; }
    }
  }

  /** Comparing lengths is comparing them times a width. */
  lemma Scales(a: real, b: real, width: real)
    requires width > 0.0
    ensures a <= b <==> a * width <= b * width
    ensures a < b <==> a * width < b * width
  {
    if a < b { assert (b - a) * width > 0.0; } else if b < a { assert (a - b) * width > 0.0; }
  }

  /** The page's width times its length, once it is scaled down, and never up, to a width. */
  function Printed(page: Paper, width: real): real {
    page.height * if width < page.width then width else page.width
  }

  /** `length` is right for a page `width` wide whose printed length times that width is `printed`:
      the printed length to the next point, wherever the driver allows that; else the driver's
      longest or shortest, to the next point. */
  predicate RightLength(c: Custom, length: real, printed: real, width: real) {
    && (c.minHeight * width <= printed <= c.maxHeight * width ==> printed <= length * width < printed + width)
    && (printed > c.maxHeight * width ==> c.maxHeight <= length < c.maxHeight + 1.0)
    && (printed < c.minHeight * width ==> c.minHeight <= length < c.minHeight + 1.0)
    && c.minHeight <= length < c.maxHeight + 1.0
  }

  /** A custom size is as wide as the driver's widest, and right for the page scaled to that. */
  lemma CustomSizeIsRight(sizes: seq<Size>, c: Custom, page: Paper)
    requires 0.0 < c.maxWidth && c.minHeight <= c.maxHeight
    requires CustomRollMedia(sizes, Some(c), Some(page)).CustomSize?
    ensures
      var m := CustomRollMedia(sizes, Some(c), Some(page));
      && -0.5 <= m.width as real - c.maxWidth <= 0.5
      && RightLength(c, m.height as real, Printed(page, c.maxWidth), page.width)
      && m.height <= Ceil(c.maxHeight)
      && page.width > 0.0 && (page.height >= 0.0 ==> ScaledLength(page, c.maxWidth) <= page.height)
  {
    CustomIs(sizes, c, page);
    RoundIsNearest(c.maxWidth);
    hide *;
    CustomSizeIs(c, page);
    CustomLengthIsRight(c, page);
    if page.height >= 0.0 { NeverEnlarges(page, c.maxWidth); }
    NoLonger(c, ScaledLength(page, c.maxWidth));
  }

  lemma NoLonger(c: Custom, receipt: real)
    requires c.minHeight <= c.maxHeight
    ensures CustomLength(c, receipt) <= Ceil(c.maxHeight)
  {
    CeilKeepsOrder(Most(c.minHeight, Least(c.maxHeight, receipt)), c.maxHeight);
  }

  lemma NeverEnlarges(page: Paper, width: real)
    requires page.width > 0.0 && page.height >= 0.0
    ensures ScaledLength(page, width) <= page.height
  {
    Shrinks(page.height, Least(1.0, width / page.width));
  }

  lemma Shrinks(a: real, s: real)
    requires a >= 0.0 && s <= 1.0
    ensures a * s <= a
  {
    assert a - a * s == a * (1.0 - s) >= 0.0;
  }

  lemma CustomSizeIs(c: Custom, page: Paper)
    requires page.width > 0.0
    ensures CustomSizeFor(c, page) == CustomSize(RoundHalfEven(c.maxWidth), CustomLength(c, ScaledLength(page, c.maxWidth)))
  {
  }

  lemma CustomLengthIsRight(c: Custom, page: Paper)
    requires c.minHeight <= c.maxHeight && page.width > 0.0
    ensures RightLength(c, CustomLength(c, ScaledLength(page, c.maxWidth)) as real, Printed(page, c.maxWidth), page.width)
  {
    ScalingKeepsShape(page, c.maxWidth);
    assert ScaledLength(page, c.maxWidth) * page.width == Printed(page, c.maxWidth);
    hide *;
    var receipt := ScaledLength(page, c.maxWidth);
    LengthIs(c, receipt);
    InProducts(c, receipt, CustomLength(c, receipt) as real, page.width, Printed(page, c.maxWidth));
  }

  lemma CustomIs(sizes: seq<Size>, c: Custom, page: Paper)
    requires CustomRollMedia(sizes, Some(c), Some(page)).CustomSize?
    ensures page.width > 0.0 && CustomRollMedia(sizes, Some(c), Some(page)) == CustomSizeFor(c, page)
  {
    hide CustomSizeFor;
  }

  lemma LengthIs(c: Custom, receipt: real)
    requires c.minHeight <= c.maxHeight
    ensures
      var length := CustomLength(c, receipt) as real;
      && (c.minHeight <= receipt <= c.maxHeight ==> receipt <= length < receipt + 1.0)
      && (receipt > c.maxHeight ==> c.maxHeight <= length < c.maxHeight + 1.0)
      && (receipt < c.minHeight ==> c.minHeight <= length < c.minHeight + 1.0)
      && c.minHeight <= length < c.maxHeight + 1.0
  {
    CeilIs(Most(c.minHeight, Least(c.maxHeight, receipt)));
    hide Ceil;
  }

  lemma InProducts(c: Custom, receipt: real, length: real, width: real, printed: real)
    requires width > 0.0 && receipt * width == printed
    requires c.minHeight <= receipt <= c.maxHeight ==> receipt <= length < receipt + 1.0
    requires receipt > c.maxHeight ==> c.maxHeight <= length < c.maxHeight + 1.0
    requires receipt < c.minHeight ==> c.minHeight <= length < c.minHeight + 1.0
    requires c.minHeight <= length < c.maxHeight + 1.0
    ensures RightLength(c, length, printed, width)
  {
    Scales(c.minHeight, receipt, width);
    Scales(receipt, c.minHeight, width);
    Scales(receipt, c.maxHeight, width);
    Scales(c.maxHeight, receipt, width);
    Scales(receipt, length, width);
    Scales(length, receipt + 1.0, width);
  }
}
