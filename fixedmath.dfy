/**
 * Q16.8 fixed-point arithmetic, 9-bit binary angles and the 2D vector and
 * matrix helpers of the game's math library (fixedmath.h / fixedmath.c).
 *
 * A Q16.8 value is an integer holding 256 times the real quantity. Integers
 * are unbounded here: the int32 wrap-around of the C code is not modelled,
 * but every rounding rule is (arithmetic shift right floors, C division
 * truncates toward zero).
 */
module FixedMath {

  const FIXED_SHIFT: int := 8
  const FIXED_ONE: int := 256
  const ANGLE_FULL: int := 512
  const ANGLE_HALF: int := 256
  const ANGLE_QUARTER: int := 128
  const ANGLE_MASK: int := 511

  // ---------------------------------------------------------------------
  // Integer helpers for the C operators
  // ---------------------------------------------------------------------

  function Abs(a: int): (r: nat)
    ensures r == a || r == -a
  {
    if a < 0 then -a else a
  }

  /** C `/` on signed integers: the quotient is truncated toward zero. */
  function TruncDiv(a: int, b: int): (q: int)
    requires b != 0
    ensures Abs(q) == Abs(a) / Abs(b)
    ensures q == 0 || (q < 0 <==> (a < 0) != (b < 0))
  {
    var m := Abs(a) / Abs(b);
    if (a < 0) != (b < 0) then -m else m
  }

  /** C `%` on signed integers: the remainder takes the sign of the dividend. */
  function TruncMod(a: int, b: int): (r: int)
    requires b != 0
    ensures Abs(r) < Abs(b)
    ensures r == 0 || (r < 0 <==> a < 0)
  {
    var m := Abs(a) % Abs(b);
    if a < 0 then -m else m
  }

  /** `angle & ANGLE_MASK` on a two's-complement int: the residue in [0, 512). */
  function Wrap(angle: int): (r: int)
    ensures 0 <= r < ANGLE_FULL
    ensures (angle - r) % ANGLE_FULL == 0
  {
    angle % ANGLE_FULL
  }

  // ---------------------------------------------------------------------
  // Conversion and arithmetic macros
  // ---------------------------------------------------------------------

  /** IntToFixed: `i << 8`. */
  function IntToFixed(i: int): int { i * FIXED_ONE }

  /** FixedToInt: `f >> 8`, an arithmetic shift, which floors. */
  function FixedToInt(f: int): int { f / FIXED_ONE }

  /** FixedMul: 64-bit product shifted right by 8 (floors). */
  function FixedMul(a: int, b: int): int { (a * b) / FIXED_ONE }

  /** FixedDiv: `(a << 8) / b` with C division (truncates toward zero). */
  function FixedDiv(a: int, b: int): int
    requires b != 0
  {
    TruncDiv(a * FIXED_ONE, b)
  }

  function FixedAbs(a: int): int { if a < 0 then -a else a }

  lemma FixedRoundTrip(i: int)
    ensures FixedToInt(IntToFixed(i)) == i
  {
  }

  lemma {:induction false} FixedToIntFloors(f: int)
    ensures IntToFixed(FixedToInt(f)) <= f < IntToFixed(FixedToInt(f)) + FIXED_ONE
  {
    var q := f / 256;
    assert f == q * 256 + f % 256;
  }

  lemma FixedMulIdentity(a: int, b: int)
    ensures FixedMul(a, FIXED_ONE) == a
    ensures FixedMul(a, b) == FixedMul(b, a)
  {
  }

  lemma {:induction false} FixedDivIdentity(a: int)
    ensures FixedDiv(a, FIXED_ONE) == a
  {
    assert Abs(a * 256) == Abs(a) * 256;
  }

  lemma FixedAbsNonNegative(a: int)
    ensures FixedAbs(a) >= 0 && (FixedAbs(a) == a || FixedAbs(a) == -a)
  {
  }

  // ---------------------------------------------------------------------
  // Vectors and matrices (fixedmath.h inline operations)
  // ---------------------------------------------------------------------

  datatype Vec2 = Vec2(x: int, y: int)

  datatype Mat2 = Mat2(m00: int, m01: int, m10: int, m11: int)

  function Zero(): Vec2 { Vec2(0, 0) }

  function FromInt(x: int, y: int): Vec2 { Vec2(IntToFixed(x), IntToFixed(y)) }

  function Add(a: Vec2, b: Vec2): Vec2 { Vec2(a.x + b.x, a.y + b.y) }

  function Sub(a: Vec2, b: Vec2): Vec2 { Vec2(a.x - b.x, a.y - b.y) }

  function Neg(a: Vec2): Vec2 { Vec2(-a.x, -a.y) }

  function Scale(a: Vec2, s: int): Vec2 { Vec2(FixedMul(a.x, s), FixedMul(a.y, s)) }

  function Dot(a: Vec2, b: Vec2): int { FixedMul(a.x, b.x) + FixedMul(a.y, b.y) }

  function LenSquared(a: Vec2): int { Dot(a, a) }

  predicate IsZero(a: Vec2) { a.x == 0 && a.y == 0 }

  function DistanceSquared(a: Vec2, b: Vec2): int { LenSquared(Sub(a, b)) }

  function Perp(v: Vec2): Vec2 { Vec2(-v.y, v.x) }

  function PerpCW(v: Vec2): Vec2 { Vec2(v.y, -v.x) }

  function Reflect(v: Vec2, normal: Vec2): Vec2
  {
    var dot2 := FixedMul(Dot(v, normal), IntToFixed(2));
    Sub(v, Scale(normal, dot2))
  }

  function Identity(): Mat2 { Mat2(FIXED_ONE, 0, 0, FIXED_ONE) }

  function MulVec(m: Mat2, v: Vec2): Vec2
  {
    Vec2(FixedMul(m.m00, v.x) + FixedMul(m.m01, v.y),
         FixedMul(m.m10, v.x) + FixedMul(m.m11, v.y))
  }

  function MatMul(a: Mat2, b: Mat2): Mat2
  {
    Mat2(FixedMul(a.m00, b.m00) + FixedMul(a.m01, b.m10),
         FixedMul(a.m00, b.m01) + FixedMul(a.m01, b.m11),
         FixedMul(a.m10, b.m00) + FixedMul(a.m11, b.m10),
         FixedMul(a.m10, b.m01) + FixedMul(a.m11, b.m11))
  }

  function MatScale(sx: int, sy: int): Mat2 { Mat2(sx, 0, 0, sy) }

  lemma VectorAlgebra(a: Vec2, b: Vec2)
    ensures Sub(Add(a, b), b) == a
    ensures Neg(Neg(a)) == a
    ensures PerpCW(Perp(a)) == a && Perp(PerpCW(a)) == a
    ensures IsZero(a) <==> a == Zero()
    ensures DistanceSquared(a, a) == 0
  {
  }

  lemma {:induction false} LenSquaredNonNegative(a: Vec2)
    ensures LenSquared(a) >= 0
    ensures DistanceSquared(a, Zero()) == LenSquared(a)
  {
    assert a.x * a.x >= 0 && a.y * a.y >= 0;
  }

  lemma {:induction false} DistanceSquaredSymmetric(a: Vec2, b: Vec2)
    ensures DistanceSquared(a, b) == DistanceSquared(b, a)
  {
    var d := Sub(a, b);
    var e := Sub(b, a);
    assert e.x * e.x == d.x * d.x && e.y * e.y == d.y * d.y;
  }

  lemma IdentityMatrix(v: Vec2, m: Mat2)
    ensures MulVec(Identity(), v) == v
    ensures MatMul(Identity(), m) == m && MatMul(m, Identity()) == m
    ensures MatScale(FIXED_ONE, FIXED_ONE) == Identity()
  {
  }

  // ---------------------------------------------------------------------
  // Sine table and trigonometry (fixedmath.c)
  // ---------------------------------------------------------------------

  /**
   * Quarter-wave sine table: round(sin(i * 90 / 128 degrees) * 256) for
   * i in 0..128, written as rows of 16 entries.
   */
  function SinLut(): seq<int>
  {
    [0, 3, 6, 9, 13, 16, 19, 22, 25, 28, 31, 34, 38, 41, 44, 47] +
    [50, 53, 56, 59, 62, 65, 68, 71, 74, 77, 80, 83, 86, 89, 92, 95] +
    [98, 101, 104, 107, 109, 112, 115, 118, 121, 123, 126, 129, 132, 134, 137, 140] +
    [142, 145, 147, 150, 152, 155, 157, 160, 162, 165, 167, 170, 172, 174, 177, 179] +
    [181, 183, 185, 188, 190, 192, 194, 196, 198, 200, 202, 204, 206, 207, 209, 211] +
    [213, 215, 216, 218, 220, 221, 223, 224, 226, 227, 229, 230, 231, 233, 234, 235] +
    [237, 238, 239, 240, 241, 242, 243, 244, 245, 246, 247, 248, 248, 249, 250, 250] +
    [251, 252, 252, 253, 253, 254, 254, 254, 255, 255, 255, 256, 256, 256, 256, 256] +
    [256]
  }

  /** Each entry is in [0, 256] and no larger than the next one. */
  lemma LutStep(i: int)
    requires 0 <= i < 128
    ensures |SinLut()| == 129
    ensures 0 <= SinLut()[i] <= SinLut()[i + 1] <= FIXED_ONE
  {
    if i < 16 { LutRow0(i); }
    else if i < 32 { LutRow1(i); }
    else if i < 48 { LutRow2(i); }
    else if i < 64 { LutRow3(i); }
    else if i < 80 { LutRow4(i); }
    else if i < 96 { LutRow5(i); }
    else if i < 112 { LutRow6(i); }
    else { LutRow7(i); }
  }

  lemma LutRow0(i: int)
    requires 0 <= i < 16
    ensures 0 <= SinLut()[i] <= SinLut()[i + 1] <= FIXED_ONE
  {
  }

  lemma LutRow1(i: int)
    requires 16 <= i < 32
    ensures 0 <= SinLut()[i] <= SinLut()[i + 1] <= FIXED_ONE
  {
  }

  lemma LutRow2(i: int)
    requires 32 <= i < 48
    ensures 0 <= SinLut()[i] <= SinLut()[i + 1] <= FIXED_ONE
  {
  }

  lemma LutRow3(i: int)
    requires 48 <= i < 64
    ensures 0 <= SinLut()[i] <= SinLut()[i + 1] <= FIXED_ONE
  {
  }

  lemma LutRow4(i: int)
    requires 64 <= i < 80
    ensures 0 <= SinLut()[i] <= SinLut()[i + 1] <= FIXED_ONE
  {
  }

  lemma LutRow5(i: int)
    requires 80 <= i < 96
    ensures 0 <= SinLut()[i] <= SinLut()[i + 1] <= FIXED_ONE
  {
  }

  lemma LutRow6(i: int)
    requires 96 <= i < 112
    ensures 0 <= SinLut()[i] <= SinLut()[i + 1] <= FIXED_ONE
  {
  }

  lemma LutRow7(i: int)
    requires 112 <= i < 128
    ensures 0 <= SinLut()[i] <= SinLut()[i + 1] <= FIXED_ONE
  {
  }

  lemma LutShape()
    ensures |SinLut()| == 129
    ensures SinLut()[0] == 0 && SinLut()[128] == FIXED_ONE
    ensures forall i | 0 <= i <= 128 :: 0 <= SinLut()[i] <= FIXED_ONE
  {
    forall i | 0 <= i <= 128
      ensures 0 <= SinLut()[i] <= FIXED_ONE
    {
      if i < 128 {
        LutStep(i);
      } else {
        LutStep(127);
      }
    }
  }

  lemma {:induction false} LutMonotone(i: int, j: int)
    requires 0 <= i <= j <= 128
    ensures SinLut()[i] <= SinLut()[j]
    decreases j - i
  {
    LutShape();
    if i < j {
      LutMonotone(i, j - 1);
      LutStep(j - 1);
    }
  }

  /** Fixed_Sin: quarter-wave lookup mirrored in odd quadrants, negated in the lower half. */
  function Sin(angle: int): int
  {
    SinFrom(SinLut(), Wrap(angle))
  }

  /** Fixed_Sin after `angle & ANGLE_MASK`, over a quarter-wave table `lut`. */
  function SinFrom(lut: seq<int>, a: int): int
    requires |lut| == 129 && 0 <= a < ANGLE_FULL
  {
    var quadrant := a / 128;
    var idx := a % 128;
    var v := if quadrant % 2 == 1 then lut[128 - idx] else lut[idx];
    if quadrant >= 2 then -v else v
  }

  /** Fixed_Cos: cos(x) = sin(x + 90 degrees). */
  function Cos(angle: int): int { Sin(angle + ANGLE_QUARTER) }

  lemma {:induction false} SinBounded(angle: int)
    ensures -FIXED_ONE <= Sin(angle) <= FIXED_ONE
    ensures -FIXED_ONE <= Cos(angle) <= FIXED_ONE
  {
    LutShape();
  }

  lemma SinPeriodic(angle: int)
    ensures Sin(angle) == Sin(Wrap(angle))
    ensures Sin(angle + ANGLE_FULL) == Sin(angle)
  {
    assert Wrap(Wrap(angle)) == Wrap(angle);
    assert Wrap(angle + ANGLE_FULL) == Wrap(angle);
  }

  /** Whole turns do not change a wrapped angle. */
  lemma WrapShift(angle: int, turns: int)
    ensures Wrap(angle + ANGLE_FULL * turns) == Wrap(angle)
  {
    var q := angle / ANGLE_FULL;
    var r := angle % ANGLE_FULL;
    assert angle == ANGLE_FULL * q + r;
    assert angle + ANGLE_FULL * turns == ANGLE_FULL * (q + turns) + r;
  }

  /** Wrapping before adding an offset gives the same angle as wrapping after. */
  lemma WrapThenAdd(angle: int, offset: int)
    ensures Wrap(Wrap(angle) + offset) == Wrap(angle + offset)
  {
    var q := angle / ANGLE_FULL;
    assert Wrap(angle) + offset == angle + offset + ANGLE_FULL * -q;
    WrapShift(angle + offset, -q);
  }

  /** Angles a whole number of turns apart have the same sine. */
  lemma SinCongruent(x: int, y: int)
    requires Wrap(x) == Wrap(y)
    ensures Sin(x) == Sin(y)
  {
  }

  lemma {:induction false} SinHalfTurn(angle: int)
    ensures Sin(angle + ANGLE_HALF) == -Sin(angle)
    ensures Cos(angle + ANGLE_HALF) == -Cos(angle)
  {
    WrappedHalfTurn(angle);
    WrappedHalfTurn(angle + ANGLE_QUARTER);
  }

  lemma {:induction false} WrappedHalfTurn(angle: int)
    ensures Sin(angle + ANGLE_HALF) == -Sin(angle)
  {
    var a := Wrap(angle);
    var b := Wrap(angle + 256);
    assert b == if a < 256 then a + 256 else a - 256;
    TableHalfTurn(SinLut(), a, b);
  }

  lemma {:induction false} TableHalfTurn(lut: seq<int>, a: int, b: int)
    requires |lut| == 129 && 0 <= a < ANGLE_FULL
    requires b == if a < 256 then a + 256 else a - 256
    ensures 0 <= b < ANGLE_FULL && SinFrom(lut, b) == -SinFrom(lut, a)
  {
    assert b % 128 == a % 128;
    assert b / 128 == if a < 256 then a / 128 + 2 else a / 128 - 2;
  }

  lemma SinLandmarks()
    ensures Sin(0) == 0 && Sin(ANGLE_QUARTER) == FIXED_ONE
    ensures Sin(ANGLE_HALF) == 0 && Sin(3 * ANGLE_QUARTER) == -FIXED_ONE
    ensures Cos(0) == FIXED_ONE && Cos(ANGLE_HALF) == -FIXED_ONE
  {
    LutShape();
  }

  // ---------------------------------------------------------------------
  // Integer square root
  // ---------------------------------------------------------------------

  /** The floor square root, defined by recursion on n / 4. */
  function Sqrt(n: nat): nat
    decreases n
  {
    if n == 0 then 0
    else
      var t := Sqrt(n / 4);
      if (2 * t + 1) * (2 * t + 1) <= n then 2 * t + 1 else 2 * t
  }

  /** Sqrt(n) is the floor square root of n. */
  lemma {:induction false} SqrtIsRoot(n: nat)
    ensures Sqrt(n) * Sqrt(n) <= n < (Sqrt(n) + 1) * (Sqrt(n) + 1)
    decreases n
  {
    if n > 0 {
      SqrtIsRoot(n / 4);
      SqrtStep(n, Sqrt(n / 4));
    }
  }

  lemma {:induction false} SqrtStep(n: nat, t: nat)
    requires t * t <= n / 4 < (t + 1) * (t + 1)
    ensures (2 * t) * (2 * t) <= n < (2 * t + 2) * (2 * t + 2)
  {
    var q := n / 4;
    assert n == 4 * q + n % 4;
    assert (2 * t) * (2 * t) == 4 * (t * t);
    assert (2 * t + 2) * (2 * t + 2) == 4 * ((t + 1) * (t + 1));
    assert q + 1 <= (t + 1) * (t + 1);
  }

  lemma {:induction false} SqrtUnique(n: nat, r: nat, s: nat)
    requires r * r <= n < (r + 1) * (r + 1)
    requires s * s <= n < (s + 1) * (s + 1)
    ensures r == s
  {
    if r < s {
      assert r + 1 <= s;
      MulMono(r + 1, s);
    } else if s < r {
      assert s + 1 <= r;
      MulMono(s + 1, r);
    }
  }

  lemma {:induction false} MulMono(a: nat, b: nat)
    requires a <= b
    ensures a * a <= b * b
  {
    assert a * a <= a * b <= b * b;
  }

  function Pow4(k: nat): (p: nat)
    ensures p >= 1
  {
    if k == 0 then 1 else 4 * Pow4(k - 1)
  }

  lemma {:induction false} Pow4Add(a: nat, b: nat)
    ensures Pow4(a + b) == Pow4(a) * Pow4(b)
    decreases a
  {
    if a > 0 {
      Pow4Add(a - 1, b);
    }
  }

  lemma Pow4Top()
    ensures Pow4(31) == 0x4000_0000_0000_0000
  {
    assert Pow4(2) == 16;
    Pow4Add(2, 2);
    Pow4Add(4, 4);
    Pow4Add(8, 8);
    Pow4Add(16, 8);
    Pow4Add(24, 4);
    Pow4Add(28, 2);
    Pow4Add(30, 1);
  }

  /**
   * The state of isqrt's digit loop: with bit = 4^k, y is the square root of
   * n0 truncated to the digits above k, res is y scaled by 4^(k+1), and n is
   * what remains of n0 after subtracting y * y at that scale.
   */
  ghost predicate DigitState(n0: nat, n: int, res: nat, bit: nat, y: nat)
  {
    if bit > 0 then
      res == y * (4 * bit) && n + y * y * (4 * bit) == n0 &&
      y * y * (4 * bit) <= n0 < (y + 1) * (y + 1) * (4 * bit)
    else
      res == y && n + y * y == n0 && y * y <= n0 < (y + 1) * (y + 1)
  }

  /**
   * isqrt: the bit-by-bit square root over uint64. The result fits in 32 bits,
   * so the final uint32 cast does not truncate.
   */
  method Isqrt(n0: nat) returns (r: nat)
    requires n0 < 0x1_0000_0000_0000_0000
    ensures r * r <= n0 < (r + 1) * (r + 1)
    ensures r == Sqrt(n0) && r < 0x1_0000_0000
  {
    var bit, k := HighestBit(n0);
    r := DigitLoop(n0, bit, k);
    SqrtIsRoot(n0);
    SqrtUnique(n0, r, Sqrt(n0));
    if r >= 0x1_0000_0000 {
      MulMono(0x1_0000_0000, r);
    }
  }

  /** isqrt's first loop: the highest power of four not above n0, or 0 when n0 is 0. */
  method HighestBit(n0: nat) returns (bit: nat, ghost k: nat)
    requires n0 < 0x1_0000_0000_0000_0000
    ensures bit == 0 || bit == Pow4(k)
    ensures bit <= n0 && (n0 < 4 * bit || (bit == 0 && n0 == 0))
  {
    bit := 0x4000_0000_0000_0000;
    k := 31;
    Pow4Top();
    while bit > n0
      invariant bit == 0 || bit == Pow4(k)
      invariant n0 < 4 * bit || (bit == 0 && n0 == 0)
      decreases bit
    {
      bit := bit / 4;
      if k > 0 {
        k := k - 1;
      }
    }
  }

  /** isqrt's digit loop: one result bit per power of four, from bit0 down. */
  method DigitLoop(n0: nat, bit0: nat, ghost k0: nat) returns (r: nat)
    requires bit0 == 0 || bit0 == Pow4(k0)
    requires n0 < 4 * bit0 || (bit0 == 0 && n0 == 0)
    ensures r * r <= n0 < (r + 1) * (r + 1)
  {
    var n: int := n0;
    var res: nat := 0;
    var bit := bit0;
    ghost var k := k0;
    ghost var y: nat := 0;
    assert DigitState(n0, n, res, bit, y);
    while bit != 0
      invariant bit == 0 || bit == Pow4(k)
      invariant DigitState(n0, n, res, bit, y)
      decreases bit
    {
      var take := n >= res + bit;
      ghost var y' := if take then 2 * y + 1 else 2 * y;
      var n' := if take then n - (res + bit) else n;
      var res' := if take then res / 2 + bit else res / 2;
      DigitStep(n0, n, res, bit, y, k);
      n, res, y := n', res', y';
      bit := bit / 4;
      if k > 0 {
        k := k - 1;
      }
    }
    r := res;
  }

  /** One digit of isqrt re-establishes DigitState one level down. */
  lemma {:induction false} DigitStep(n0: nat, n: int, res: nat, bit: nat, y: nat, k: nat)
    requires bit > 0 && bit == Pow4(k)
    requires DigitState(n0, n, res, bit, y)
    ensures n >= res + bit ==>
      DigitState(n0, n - (res + bit), res / 2 + bit, bit / 4, 2 * y + 1)
    ensures n < res + bit ==>
      DigitState(n0, n, res / 2, bit / 4, 2 * y)
  {
    if k == 0 {
      assert bit == 1;
      DigitBits(n0, n, res, bit, y, 1);
    } else {
      assert bit == 4 * Pow4(k - 1);
      DigitBits(n0, n, res, bit, y, 4 * (bit / 4));
    }
  }

  /** The square identities one digit step relies on, at scale b. */
  lemma SquareScale(y: nat, b: nat)
    ensures (2 * y + 1) * (2 * y + 1) * b == 4 * (y * y * b) + 4 * (y * b) + b
    ensures (2 * y) * (2 * y) * b == 4 * (y * y * b)
    ensures (2 * y + 2) * (2 * y + 2) * b == (y + 1) * (y + 1) * (4 * b)
    ensures y * y * (4 * b) == 4 * (y * y * b)
    ensures y * (4 * b) == 4 * (y * b)
    ensures (2 * y + 1) * b == 2 * (y * b) + b
    ensures (2 * y) * b == 2 * (y * b)
  {
    assert (2 * y + 1) * (2 * y + 1) == 4 * (y * y) + 4 * y + 1;
    assert (2 * y + 2) * (2 * y + 2) == 4 * ((y + 1) * (y + 1));
  }

  /**
   * DigitStep with the next scale m named: m is 4 * (bit / 4) when a digit
   * remains below, and 1 when bit is the last digit.
   */
  lemma DigitBits(n0: nat, n: int, res: nat, bit: nat, y: nat, m: nat)
    requires bit > 0 && m == bit
    requires (bit == 1 && bit / 4 == 0) || (bit / 4 > 0 && m == 4 * (bit / 4))
    requires res == y * (4 * bit) && n + y * y * (4 * bit) == n0
    requires y * y * (4 * bit) <= n0 < (y + 1) * (y + 1) * (4 * bit)
    ensures n >= res + bit ==>
      DigitState(n0, n - (res + bit), res / 2 + bit, bit / 4, 2 * y + 1)
    ensures n < res + bit ==>
      DigitState(n0, n, res / 2, bit / 4, 2 * y)
  {
    SquareScale(y, bit);
  }

  // ---------------------------------------------------------------------
  // Length, normalisation, clamping
  // ---------------------------------------------------------------------

  /**
   * Vec2_Len: the squared length is a Q16.8 value, so the length is the floor
   * square root of len2 << 8; a non-positive len2 gives 0.
   */
  function Len(a: Vec2): (r: int)
    ensures r >= 0
    ensures LenSquared(a) <= 0 ==> r == 0
  {
    var len2 := LenSquared(a);
    if len2 <= 0 then 0 else Sqrt(len2 * FIXED_ONE)
  }

  /** The length is the floor square root of the squared length taken to Q16.16. */
  lemma LenIsRoot(a: Vec2)
    ensures LenSquared(a) > 0 ==>
      Len(a) * Len(a) <= LenSquared(a) * FIXED_ONE < (Len(a) + 1) * (Len(a) + 1)
  {
    if LenSquared(a) > 0 {
      SqrtIsRoot(LenSquared(a) * FIXED_ONE);
    }
  }

  function Distance(a: Vec2, b: Vec2): int { Len(Sub(a, b)) }

  lemma {:induction false} DistanceProperties(a: Vec2, b: Vec2)
    ensures Distance(a, a) == 0
    ensures Distance(a, b) == Distance(b, a)
    ensures Distance(a, b) >= 0
  {
    DistanceSquaredSymmetric(a, b);
  }

  /** Vec2_Normalize: zero for the zero vector or a vector whose length rounds to 0. */
  function Normalize(a: Vec2): (r: Vec2)
    ensures IsZero(a) || Len(a) == 0 ==> r == Zero()
    ensures Len(a) != 0 ==> r == Vec2(FixedDiv(a.x, Len(a)), FixedDiv(a.y, Len(a)))
  {
    if IsZero(a) then Zero()
    else
      var len := Len(a);
      if len == 0 then Zero() else Vec2(FixedDiv(a.x, len), FixedDiv(a.y, len))
  }

  /**
   * One coordinate of a normalised vector: FixedDiv keeps the sign (or
   * truncates to 0) and its magnitude p is the floor of |v| * 256 / n.
   */
  lemma {:induction false} NormalizedCoordinate(v: int, n: int)
    requires n > 0
    ensures var q := FixedDiv(v, n);
      (v > 0 ==> q >= 0) && (v < 0 ==> q <= 0) && (v == 0 ==> q == 0) &&
      Abs(q) * n <= Abs(v) * FIXED_ONE < (Abs(q) + 1) * n
  {
    var q := FixedDiv(v, n);
    var m := Abs(v * FIXED_ONE);
    assert m == Abs(v) * FIXED_ONE;
    assert Abs(q) == m / n;
    assert m == n * (m / n) + m % n;
  }

  /** The squared form of NormalizedCoordinate. */
  lemma {:induction false} NormalizedCoordinateSquared(v: int, n: int)
    requires n > 0
    ensures var p := Abs(FixedDiv(v, n));
      (p * p) * (n * n) <= (v * v) * (FIXED_ONE * FIXED_ONE) < ((p + 1) * (p + 1)) * (n * n)
  {
    var p := Abs(FixedDiv(v, n));
    NormalizedCoordinate(v, n);
    var w := Abs(v) * FIXED_ONE;
    MulMono(p * n, w);
    StrictMulMono(w, (p + 1) * n);
    SquareOfProduct(p, n);
    SquareOfProduct(p + 1, n);
    SquareOfProduct(Abs(v), FIXED_ONE);
    assert Abs(v) * Abs(v) == v * v;
  }

  lemma {:induction false} SquareOfProduct(a: int, b: int)
    ensures (a * b) * (a * b) == (a * a) * (b * b)
  {
  }

  lemma {:induction false} StrictMulMono(a: nat, b: nat)
    requires a < b
    ensures a * a < b * b
  {
    assert a * a <= a * b < b * b;
  }

  /** The Q16.8 square of x, floored, brackets x * x / 256. */
  lemma {:induction false} FixedSquareBracket(x: int)
    ensures FIXED_ONE * FixedMul(x, x) <= x * x < FIXED_ONE * FixedMul(x, x) + FIXED_ONE
  {
    var sq := x * x;
    assert sq == FIXED_ONE * (sq / FIXED_ONE) + sq % FIXED_ONE;
  }

  /**
   * Vec2_Normalize preserves direction coordinate by coordinate (no sign
   * flips, a zero coordinate stays zero), and rounding only ever shortens
   * each coordinate by less than one unit, so the result is never short of
   * unit length by more than that: (|x| + 1)^2 + (|y| + 1)^2 > 1.0 in Q16.16.
   * Above, the squared result is at most 1.0 plus the error the rounded
   * length n brings: (x^2 + y^2) * n^2 <= 1.0 * ((n + 1)^2 + 510).
   */
  lemma {:induction false} NormalizeKeepsDirection(a: Vec2)
    ensures var r := Normalize(a);
      (a.x > 0 ==> r.x >= 0) && (a.x < 0 ==> r.x <= 0) && (a.x == 0 ==> r.x == 0) &&
      (a.y > 0 ==> r.y >= 0) && (a.y < 0 ==> r.y <= 0) && (a.y == 0 ==> r.y == 0)
    ensures var r := Normalize(a);
      var n := Len(a);
      n != 0 ==>
        (Abs(r.x) + 1) * (Abs(r.x) + 1) + (Abs(r.y) + 1) * (Abs(r.y) + 1) > FIXED_ONE * FIXED_ONE &&
        (r.x * r.x + r.y * r.y) * (n * n) <= FIXED_ONE * FIXED_ONE * ((n + 1) * (n + 1) + 510)
  {
    var r := Normalize(a);
    var n := Len(a);
    if n != 0 {
      assert !IsZero(a);
      NormalizedCoordinate(a.x, n);
      NormalizedCoordinate(a.y, n);
      LenSquaredBracket(a);
      NormalizeBounds(a.x, a.y, n, LenSquared(a), r.x, r.y);
    } else {
      assert r == Zero();
    }
  }

  /**
   * The bounds of NormalizeKeepsDirection for the coordinates (x, y), the
   * rounded length n and the Q16.8 squared length l2.
   */
  lemma {:induction false} NormalizeBounds(x: int, y: int, n: int, l2: int, rx: int, ry: int)
    requires n * n > 0 && n * n <= l2 * FIXED_ONE < (n + 1) * (n + 1)
    requires l2 * FIXED_ONE <= x * x + y * y < l2 * FIXED_ONE + 2 * FIXED_ONE
    requires n > 0 && rx == FixedDiv(x, n) && ry == FixedDiv(y, n)
    ensures (Abs(rx) + 1) * (Abs(rx) + 1) + (Abs(ry) + 1) * (Abs(ry) + 1) > FIXED_ONE * FIXED_ONE
    ensures (rx * rx + ry * ry) * (n * n) <= FIXED_ONE * FIXED_ONE * ((n + 1) * (n + 1) + 510)
  {
    var px: int, py: int := Abs(rx), Abs(ry);
    NormalizedCoordinateSquared(x, n);
    NormalizedCoordinateSquared(y, n);
    assert FIXED_ONE * FIXED_ONE >= 0;
    SumBounds(px * px, py * py, (px + 1) * (px + 1), (py + 1) * (py + 1), x * x, y * y,
              n * n, (n + 1) * (n + 1), l2, FIXED_ONE * FIXED_ONE);
    AbsSquare(rx);
    AbsSquare(ry);
  }

  /** The Q16.8 squared length, taken back to Q16.16, loses less than 2.0 to flooring. */
  lemma {:induction false} LenSquaredBracket(a: Vec2)
    requires Len(a) != 0
    ensures Len(a) * Len(a) <= LenSquared(a) * FIXED_ONE < (Len(a) + 1) * (Len(a) + 1)
    ensures LenSquared(a) * FIXED_ONE <= a.x * a.x + a.y * a.y < LenSquared(a) * FIXED_ONE + 2 * FIXED_ONE
    ensures Len(a) * Len(a) > 0
  {
    MulMono(1, Len(a));
    LenIsRoot(a);
    FixedSquareBracket(a.x);
    FixedSquareBracket(a.y);
  }

  lemma {:induction false} AbsSquare(v: int)
    ensures Abs(v) * Abs(v) == v * v
  {
    if v < 0 {
      assert Abs(v) == -v;
    }
  }

  /**
   * The arithmetic core of NormalizeBounds with every square named: u, w are
   * the result's squared coordinates, u1, w1 those one unit longer, x2, y2
   * the input's, nn and n1 the squares of the length and of the length plus
   * one, l2 the Q16.8 squared length, k the square of 1.0.
   */
  lemma {:induction false} SumBounds(u: int, w: int, u1: int, w1: int, x2: int, y2: int,
                                     nn: int, n1: int, l2: int, k: int)
    requires nn > 0 && k >= 0
    requires u * nn <= x2 * k < u1 * nn && w * nn <= y2 * k < w1 * nn
    requires nn <= l2 * FIXED_ONE < n1
    requires x2 + y2 < l2 * FIXED_ONE + 2 * FIXED_ONE
    requires l2 * FIXED_ONE <= x2 + y2
    ensures u1 + w1 > k
    ensures (u + w) * nn <= k * (n1 + 510)
  {
    assert (u1 + w1) * nn == u1 * nn + w1 * nn;
    assert (u + w) * nn == u * nn + w * nn;
    assert (x2 + y2) * k == x2 * k + y2 * k;
    MulBoundRight(nn, x2 + y2, k);
    MulCancel(u1 + w1, k, nn, nn);
    MulBoundRight(x2 + y2, n1 + 510, k);
  }

  /** From a * n > c * n and n > 0, a > c. */
  lemma {:induction false} MulCancel(a: int, c: int, nn: int, m: int)
    requires nn > 0 && m == nn
    requires a * nn > c * m
    ensures a > c
  {
    if a <= c {
      MulBoundRight(a, c, nn);
    }
  }

  lemma {:induction false} MulBoundRight(a: int, b: int, c: int)
    requires a <= b && c >= 0
    ensures a * c <= b * c
  {
    assert (b - a) * c >= 0;
  }

  /**
   * Once the length is at least 4.0, Vec2_Normalize lands within rounding of
   * unit length: the Q16.8 squared length of the result lies in [251, 256],
   * that is between 0.98 and 1.0.
   */
  lemma {:induction false} NormalizeNearlyUnit(a: Vec2)
    requires Len(a) >= 4 * FIXED_ONE
    ensures 251 <= LenSquared(Normalize(a)) <= FIXED_ONE
  {
    var r := Normalize(a);
    var n := Len(a);
    NormalizeKeepsDirection(a);
    assert FIXED_ONE * FIXED_ONE == 65536;
    var px: int, py: int := Abs(r.x), Abs(r.y);
    AbsSquare(r.x);
    AbsSquare(r.y);
    SquaredResultBelow(r.x * r.x + r.y * r.y, n, n * n, (n + 1) * (n + 1));
    SquareOfSuccessor(px);
    SquareOfSuccessor(py);
    CoordinateAtMostOne(px);
    CoordinateAtMostOne(py);
    FixedSquareBracket(r.x);
    FixedSquareBracket(r.y);
  }

  /** With n >= 1024, q * n^2 <= 1.0 * ((n + 1)^2 + 510) keeps q below 257 * 256. */
  lemma {:induction false} SquaredResultBelow(q: int, n: int, nn: int, n1: int)
    requires n >= 4 * FIXED_ONE && nn == n * n && n1 == (n + 1) * (n + 1)
    requires q * nn <= 65536 * (n1 + 510)
    ensures q < 257 * FIXED_ONE
  {
    assert n1 == nn + 2 * n + 1;
    MulBoundRight(1024, n, n);
    if q >= 257 * FIXED_ONE {
      MulBoundRight(257 * FIXED_ONE, q, nn);
      assert false;
    }
  }

  lemma {:induction false} SquareOfSuccessor(p: int)
    ensures (p + 1) * (p + 1) == p * p + 2 * p + 1
  {
  }

  /** A coordinate whose square is below 257 * 256 is at most 256, that is 1.0. */
  lemma {:induction false} CoordinateAtMostOne(p: int)
    requires p >= 0
    ensures p * p < 257 * FIXED_ONE ==> p <= FIXED_ONE
  {
    if p > FIXED_ONE {
      MulMono(257, p);
    }
  }

  /**
   * Short vectors are not normalised to unit length: (23, 0), about 0.09,
   * has squared length 2 and length 22 after rounding, so it normalises to
   * (267, 0), whose squared length 278 is about 1.09.
   */
  lemma NormalizeShortVectorOvershoots()
    ensures Normalize(Vec2(23, 0)) == Vec2(267, 0)
    ensures LenSquared(Normalize(Vec2(23, 0))) == 278 > FIXED_ONE
  {
    assert LenSquared(Vec2(23, 0)) == 2;
    SqrtIsRoot(512);
    SqrtUnique(512, Sqrt(512), 22);
    assert Len(Vec2(23, 0)) == 22;
    assert FixedDiv(23, 22) == 267 && FixedDiv(0, 22) == 0;
    assert LenSquared(Vec2(267, 0)) == 278;
  }

  /** Vec2_ClampLen. */
  function ClampLen(v: Vec2, maxLen: int): (r: Vec2)
  {
    if maxLen <= 0 then Zero()
    else if LenSquared(v) <= FixedMul(maxLen, maxLen) then v
    else Scale(Normalize(v), maxLen)
  }

  lemma ClampLenCases(v: Vec2, maxLen: int)
    ensures maxLen <= 0 ==> ClampLen(v, maxLen) == Zero()
    ensures maxLen > 0 && LenSquared(v) <= FixedMul(maxLen, maxLen) ==> ClampLen(v, maxLen) == v
    ensures maxLen > 0 && IsZero(v) ==> ClampLen(v, maxLen) == v
  {
  }

  function FromAngle(angle: int): Vec2 { Vec2(Cos(angle), Sin(angle)) }

  /** Vec2_Rotate. */
  function Rotate(v: Vec2, angle: int): Vec2
  {
    var c := Cos(angle);
    var s := Sin(angle);
    Vec2(FixedMul(v.x, c) - FixedMul(v.y, s), FixedMul(v.x, s) + FixedMul(v.y, c))
  }

  function MatRotate(angle: int): Mat2
  {
    var c := Cos(angle);
    var s := Sin(angle);
    Mat2(c, -s, s, c)
  }

  function RotateAround(point: Vec2, pivot: Vec2, angle: int): Vec2
  {
    Add(Rotate(Sub(point, pivot), angle), pivot)
  }

  lemma RotateByZero(v: Vec2, pivot: Vec2)
    ensures Rotate(v, 0) == v
    ensures Rotate(v, ANGLE_FULL) == v
    ensures RotateAround(v, pivot, 0) == v
    ensures MulVec(MatRotate(0), v) == v
  {
    SinLandmarks();
    SinPeriodic(0);
    SinPeriodic(128);
    assert Cos(0) == FIXED_ONE && Sin(0) == 0;
    assert Cos(ANGLE_FULL) == FIXED_ONE && Sin(ANGLE_FULL) == 0;
    FixedMulIdentity(v.x, 0);
    FixedMulIdentity(v.y, 0);
    FixedMulIdentity(Sub(v, pivot).x, 0);
    FixedMulIdentity(Sub(v, pivot).y, 0);
  }

  lemma FromAngleUnitAxes()
    ensures FromAngle(0) == Vec2(FIXED_ONE, 0)
    ensures FromAngle(ANGLE_QUARTER) == Vec2(0, FIXED_ONE)
    ensures FromAngle(ANGLE_HALF) == Vec2(-FIXED_ONE, 0)
    ensures FromAngle(3 * ANGLE_QUARTER) == Vec2(0, -FIXED_ONE)
  {
    SinLandmarks();
    SinPeriodic(0);
    assert Cos(ANGLE_QUARTER) == Sin(ANGLE_HALF);
    assert Cos(3 * ANGLE_QUARTER) == Sin(ANGLE_FULL);
  }

  // ---------------------------------------------------------------------
  // Vector to angle
  // ---------------------------------------------------------------------

  /** A table whose entries never decrease. */
  predicate Ascending(lut: seq<int>)
  {
    forall i, j | 0 <= i <= j < |lut| :: lut[i] <= lut[j]
  }

  lemma SinLutAscending()
    ensures |SinLut()| == 129 && Ascending(SinLut())
  {
    LutShape();
    forall i, j | 0 <= i <= j < |SinLut()|
      ensures SinLut()[i] <= SinLut()[j]
    {
      LutMonotone(i, j);
    }
  }

  /** The largest index lo <= i with lut[lo] <= v, or 0 when there is none. */
  function LastAtMost(lut: seq<int>, v: int, i: int): (lo: int)
    requires 0 <= i < |lut|
    ensures 0 <= lo <= i
    ensures lo == 0 || lut[lo] <= v
    ensures forall j | lo < j <= i :: lut[j] > v
    decreases i
  {
    if i == 0 || lut[i] <= v then i else LastAtMost(lut, v, i - 1)
  }

  /**
   * The first-quadrant angle lo (0..128) moved into the quadrant of (x, y),
   * wrapped into [0, 512).
   */
  function PlaceInQuadrant(x: int, y: int, lo: int): (r: int)
    requires 0 <= lo <= ANGLE_QUARTER
    ensures 0 <= r < ANGLE_FULL
    ensures x >= 0 && y >= 0 ==> r == lo
    ensures x < 0 && y >= 0 ==> r == ANGLE_HALF - lo
    ensures x < 0 && y < 0 ==> r == ANGLE_HALF + lo
    ensures x >= 0 && y < 0 ==> r == (ANGLE_FULL - lo) % ANGLE_FULL
    ensures x >= 0 && y < 0 ==> r == 0 || 3 * ANGLE_QUARTER <= r
  {
    var angle :=
      if x < 0 && y >= 0 then ANGLE_HALF - lo
      else if x < 0 && y < 0 then ANGLE_HALF + lo
      else if x >= 0 && y < 0 then ANGLE_FULL - lo
      else lo;
    Wrap(angle)
  }

  /** What Vec2_ToAngle computes, as a function. */
  function AngleOf(v: Vec2): (r: int)
    ensures 0 <= r < ANGLE_FULL
    ensures IsZero(v) ==> r == 0
  {
    if IsZero(v) || Len(v) == 0 then 0
    else
      SinLutAscending();
      PlaceInQuadrant(v.x, v.y, LastAtMost(SinLut(), FixedDiv(FixedAbs(v.y), Len(v)), ANGLE_QUARTER))
  }

  /**
   * Each quadrant of the plane maps into its own quarter of the circle; a
   * vector whose length rounds to 0 gets angle 0 whatever its direction.
   */
  lemma AngleOfQuadrants(v: Vec2)
    ensures Len(v) == 0 ==> AngleOf(v) == 0
    ensures v.x >= 0 && v.y >= 0 ==> AngleOf(v) <= ANGLE_QUARTER
    ensures Len(v) > 0 && v.x < 0 && v.y >= 0 ==> ANGLE_QUARTER <= AngleOf(v) <= ANGLE_HALF
    ensures Len(v) > 0 && v.x < 0 && v.y < 0 ==> ANGLE_HALF <= AngleOf(v) <= 3 * ANGLE_QUARTER
    ensures v.x >= 0 && v.y < 0 ==> AngleOf(v) == 0 || 3 * ANGLE_QUARTER <= AngleOf(v)
  {
    if !IsZero(v) && Len(v) != 0 {
      SinLutAscending();
      var lo := LastAtMost(SinLut(), FixedDiv(FixedAbs(v.y), Len(v)), ANGLE_QUARTER);
      assert AngleOf(v) == PlaceInQuadrant(v.x, v.y, lo);
    }
  }

  /**
   * The binary search of Vec2_ToAngle: the largest index lo <= 128 with
   * lut[lo] <= v.
   */
  method SearchTable(lut: seq<int>, v: int) returns (lo: int)
    requires |lut| == 129 && Ascending(lut)
    ensures lo == LastAtMost(lut, v, 128)
  {
    var hi := ANGLE_QUARTER;
    lo := 0;
    while lo < hi
      invariant 0 <= lo <= hi <= 128
      invariant lo == 0 || lut[lo] <= v
      invariant forall j | hi < j <= 128 :: lut[j] > v
      decreases hi - lo
    {
      var mid := (lo + hi + 1) / 2;
      if lut[mid] <= v {
        lo := mid;
      } else {
        hi := mid - 1;
      }
    }
  }

  /** Vec2_ToAngle. */
  method ToAngle(v: Vec2) returns (angle: int)
    ensures angle == AngleOf(v)
    ensures 0 <= angle < ANGLE_FULL
  {
    if IsZero(v) {
      return 0;
    }
    var ay := FixedAbs(v.y);
    var len := Len(v);
    if len == 0 {
      return 0;
    }
    var sinVal := FixedDiv(ay, len);
    SinLutAscending();
    var lo := SearchTable(SinLut(), sinVal);
    assert AngleOf(v) == PlaceInQuadrant(v.x, v.y, lo);
    angle := ToQuadrant(v.x, v.y, lo);
  }

  /** The quadrant adjustment at the end of Vec2_ToAngle. */
  method ToQuadrant(x: int, y: int, lo: int) returns (angle: int)
    requires 0 <= lo <= ANGLE_QUARTER
    ensures angle == PlaceInQuadrant(x, y, lo)
  {
    angle := lo;
    if x < 0 && y >= 0 {
      angle := ANGLE_HALF - angle;
    } else if x < 0 && y < 0 {
      angle := ANGLE_HALF + angle;
    } else if x >= 0 && y < 0 {
      angle := ANGLE_FULL - angle;
    }
    angle := Wrap(angle);
  }

  // ---------------------------------------------------------------------
  // Projection
  // ---------------------------------------------------------------------

  /**
   * Vec2_Project as written: the divisor is LenSquared(onto), which the
   * IsZero guard does not keep away from 0. None stands for the C division
   * by zero.
   */
  function ProjectAsWritten(v: Vec2, onto: Vec2): Option<Vec2>
  {
    if IsZero(onto) then Some(Zero())
    else if LenSquared(onto) == 0 then None
    else Some(Scale(onto, FixedDiv(Dot(v, onto), LenSquared(onto))))
  }

  lemma ProjectAsWrittenDividesByZero()
    ensures !IsZero(Vec2(1, 0)) && ProjectAsWritten(Vec2(0, 0), Vec2(1, 0)) == None
  {
  }

  /** Vec2_Project with the guard on the divisor that Vec2_Normalize already has. */
  function Project(v: Vec2, onto: Vec2): (r: Vec2)
    ensures ProjectAsWritten(v, onto).Some? ==> ProjectAsWritten(v, onto) == Some(r)
    ensures LenSquared(onto) == 0 ==> r == Zero()
  {
    if IsZero(onto) || LenSquared(onto) == 0 then Zero()
    else Scale(onto, FixedDiv(Dot(v, onto), LenSquared(onto)))
  }

  function Reject(v: Vec2, from: Vec2): Vec2 { Sub(v, Project(v, from)) }

  lemma RejectFromDegenerate(v: Vec2, from: Vec2)
    ensures LenSquared(from) == 0 ==> Reject(v, from) == v
  {
  }

  datatype Option<T> = None | Some(value: T)
}
