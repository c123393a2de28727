/** Bytes as numbers, and the eight dots of a byte, leftmost first. */
module Bits {

  type Byte = b: int | 0 <= b < 256

  /** One row of dots, eight to a byte. */
  type Row = seq<Byte>

  function Pow2(n: nat): (p: nat)
    ensures p >= 1
  {
    if n == 0 then 1 else 2 * Pow2(n - 1)
  }

  function One(d: bool): nat { if d then 1 else 0 }

  /** Binary digit `j` of a number, counted from the right. */
  predicate Digit(n: nat, j: nat) {
    if j == 0 then n % 2 == 1 else Digit(n / 2, j - 1)
  }

  /** n | (1 << j) */
  function WithDigit(n: nat, j: nat): nat {
    if j == 0 then n / 2 * 2 + 1 else WithDigit(n / 2, j - 1) * 2 + n % 2
  }

  lemma {:induction false} WithDigitSets(n: nat, j: nat, m: nat)
    ensures Digit(WithDigit(n, j), m) <==> m == j || Digit(n, m)
    decreases j
  {
    if j > 0 && m > 0 {
      WithDigitSets(n / 2, j - 1, m - 1);
      assert WithDigit(n, j) / 2 == WithDigit(n / 2, j - 1);
    }
  }

  lemma {:induction false} WithDigitFits(n: nat, j: nat, width: nat)
    requires j < width && n < Pow2(width)
    ensures WithDigit(n, j) < Pow2(width)
    decreases j
  {
    var half, p := n / 2, Pow2(width - 1);
    assert half < p;
    if j > 0 {
      WithDigitFits(half, j - 1, width - 1);
      assert WithDigit(half, j - 1) <= p - 1;
      assert WithDigit(n, j) == WithDigit(half, j - 1) * 2 + n % 2;
    }
  }

  /** Two numbers of `width` digits that agree in all of them are equal. */
  lemma {:induction false} SameDigits(a: nat, b: nat, width: nat)
    requires a < Pow2(width) && b < Pow2(width)
    requires forall j :: 0 <= j < width ==> (Digit(a, j) <==> Digit(b, j))
    ensures a == b
    decreases width
  {
    if width > 0 {
      forall j | 0 <= j < width - 1 ensures Digit(a / 2, j) <==> Digit(b / 2, j) {
        assert Digit(a, j + 1) <==> Digit(b, j + 1);
      }
      SameDigits(a / 2, b / 2, width - 1);
      assert Digit(a, 0) <==> Digit(b, 0);
    }
  }

  /** Dot `k` of a byte, leftmost first: b & (0x80 >> k). */
  predicate Bit(b: Byte, k: nat)
    requires k < 8
  {
    Digit(b, 7 - k)
  }

  /** b | (0x80 >> k) */
  function WithBit(b: Byte, k: nat): (r: Byte)
    requires k < 8
    ensures forall m :: 0 <= m < 8 ==> (Bit(r, m) <==> m == k || Bit(b, m))
  {
    PowerOfEight();
    WithDigitFits(b, 7 - k, 8);
    var r: Byte := WithDigit(b, 7 - k);
    assert forall m :: 0 <= m < 8 ==> (Bit(r, m) <==> m == k || Bit(b, m)) by {
      forall m | 0 <= m < 8 ensures Bit(r, m) <==> m == k || Bit(b, m) {
        WithDigitSets(b, 7 - k, 7 - m);
      }
    }
    r
  }

  lemma PowerOfEight()
    ensures Pow2(8) == 256
  {
    assert Pow2(4) == 16;
    assert Pow2(8) == 2 * (2 * (2 * (2 * Pow2(4))));
  }

  /** The number whose digits are `dots`, leftmost first. */
  function Pack(dots: seq<bool>): (n: nat)
    ensures n < Pow2(|dots|)
  {
    if dots == [] then 0 else 2 * Pack(dots[..|dots|-1]) + One(dots[|dots|-1])
  }

  function PackByte(dots: seq<bool>): (b: Byte)
    requires |dots| == 8
    ensures forall k :: 0 <= k < 8 ==> (Bit(b, k) <==> dots[k])
  {
    PowerOfEight();
    assert forall k | 0 <= k < 8 :: Digit(Pack(dots), 7 - k) <==> dots[k] by {
      forall k | 0 <= k < 8 ensures Digit(Pack(dots), 7 - k) <==> dots[k] { PackDigit(dots, 7 - k); }
    }
    Pack(dots)
  }

  lemma {:induction false} PackDigit(dots: seq<bool>, j: nat)
    requires j < |dots|
    ensures Digit(Pack(dots), j) <==> dots[|dots|-1-j]
    decreases j
  {
    if j > 0 { PackDigit(dots[..|dots|-1], j - 1); }
  }

  /** A byte is its dots. */
  lemma SameBits(a: Byte, b: Byte)
    requires forall k :: 0 <= k < 8 ==> (Bit(a, k) <==> Bit(b, k))
    ensures a == b
  {
    PowerOfEight();
    forall j | 0 <= j < 8 ensures Digit(a, j) <==> Digit(b, j) {
      assert Bit(a, 7 - j) <==> Bit(b, 7 - j);
    }
    SameDigits(a, b, 8);
  }

  /** The leftmost dot weighs as much as a one with a zero for every dot to its right. */
  lemma {:induction false} PackFirst(dots: seq<bool>)
    requires dots != []
    ensures Pack(dots) == (if dots[0] then Pow2(|dots| - 1) else 0) + Pack(dots[1..])
    decreases |dots|
  {
    if |dots| > 1 {
      var front, last := dots[..|dots|-1], dots[|dots|-1];
      PackFirst(front);
      assert dots[1..][..|dots|-2] == front[1..];
      assert Pack(dots[1..]) == 2 * Pack(front[1..]) + One(last);
    }
  }

  function DotsOf(b: Byte): seq<bool> { seq(8, k requires 0 <= k < 8 => Bit(b, k)) }

  /** So a byte is its dots read as a binary number, and dot 0 stands for 128. */
  lemma ByteIsItsDots(b: Byte)
    ensures Pack(DotsOf(b)) == b
    ensures Bit(b, 0) <==> b >= 128
  {
    PowerOfEight();
    SameBits(PackByte(DotsOf(b)), b);
    PackFirst(DotsOf(b));
    assert Pow2(8) == 2 * Pow2(7);
    assert Pack(DotsOf(b)[1..]) < Pow2(7);
  }
}
