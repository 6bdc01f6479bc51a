/**
 * The few pieces of Java integer semantics the light-source code relies on:
 * 32-bit `int`, the bitwise `&` operator, the `(int)` narrowing of a `double`
 * and floor division of an `int`.
 */
module JavaMath {

  /** Java's `int`. */
  newtype int32 = x: int | -0x8000_0000 <= x < 0x8000_0000

  const INT_MIN: int32 := -0x8000_0000
  const INT_MAX: int32 := 0x7fff_ffff

  /** The 32-bit two's-complement bit pattern of `x`, read as an unsigned number. */
  function Bits(x: int32): (u: nat)
    ensures u < 0x1_0000_0000
    ensures u % 0x1_0000_0000 == (x as int) % 0x1_0000_0000
  {
    if x < 0 then x as int + 0x1_0000_0000 else x as int
  }

  /** The `int` whose two's-complement bit pattern is `u`. */
  function FromBits(u: nat): (x: int32)
    requires u < 0x1_0000_0000
    ensures Bits(x) == u
  {
    if u < 0x8000_0000 then u as int32 else (u - 0x1_0000_0000) as int32
  }

  /** Bitwise AND of the low `n` bits of `a` and `b`, least significant bit first. */
  function BitAnd(a: nat, b: nat, n: nat): (r: nat)
    ensures r <= a && r <= b
  {
    if n == 0 then 0
    else (if a % 2 == 1 && b % 2 == 1 then 1 else 0) + 2 * BitAnd(a / 2, b / 2, n - 1)
  }

  /** Java's `x & y` on two `int`s. */
  function And(x: int32, y: int32): (r: int32)
    ensures 0 <= x ==> 0 <= r <= x
    ensures 0 <= y ==> 0 <= r <= y
  {
    FromBits(BitAnd(Bits(x), Bits(y), 32))
  }

  function Pow2(k: nat): (p: nat)
    ensures p >= 1
  {
    if k == 0 then 1 else 2 * Pow2(k - 1)
  }

  /**
   * `x & 15` keeps the low four bits, which for every `int`, negative ones
   * included, is the floor remainder of `x` by 16.
   */
  lemma AndFifteenIsFloorMod(x: int32)
    ensures And(x, 15) as int == (x as int) % 16
    ensures 0 <= And(x, 15) < 16
  {
    var a := Bits(x);
    assert a % 16 == (x as int) % 16;
    BitAndLowMask(a, 4, 32);
    assert Pow2(4) == 16;
    assert Bits(15) == 15;
    assert And(x, 15) == FromBits(BitAnd(a, 15, 32));
  }

  /** ANDing with a mask of `k` one bits keeps the `k` low bits: the remainder by `2^k`. */
  lemma {:induction false} BitAndLowMask(a: nat, k: nat, n: nat)
    requires k <= n
    ensures BitAnd(a, Pow2(k) - 1, n) == a % Pow2(k)
  {
    if k == 0 {
      BitAndZero(a, n);
    } else {
      BitAndLowMask(a / 2, k - 1, n - 1);
      LowMaskStep(a, Pow2(k - 1), n);
    }
  }

  lemma {:induction false} BitAndZero(a: nat, n: nat)
    ensures BitAnd(a, 0, n) == 0
  {
    if n > 0 {
      BitAndZero(a / 2, n - 1);
    }
  }

  /** One more one bit in the mask keeps one more low bit. */
  lemma LowMaskStep(a: nat, m: nat, n: nat)
    requires m >= 1 && n >= 1
    requires BitAnd(a / 2, m - 1, n - 1) == a / 2 % m
    ensures BitAnd(a, 2 * m - 1, n) == a % (2 * m)
  {
    assert (2 * m - 1) / 2 == m - 1;
    BitAndOddMask(a, 2 * m - 1, n);
    SplitLowBit(a, m);
  }

  /** Against an odd mask the lowest bit of the AND is the lowest bit of `a`. */
  lemma BitAndOddMask(a: nat, mask: nat, n: nat)
    requires mask % 2 == 1 && n >= 1
    ensures BitAnd(a, mask, n) == a % 2 + 2 * BitAnd(a / 2, mask / 2, n - 1)
  {
  }

  /** The remainder by `2m` splits into the lowest bit and the remainder of the rest by `m`. */
  lemma SplitLowBit(a: nat, m: nat)
    requires m > 0
    ensures a % (2 * m) == a % 2 + 2 * (a / 2 % m)
  {
    var q, r := a / 2, a % 2;
    var t, s := q / m, q % m;
    assert a == 2 * m * t + (2 * s + r);
    DivModUnique(a, 2 * m, t, 2 * s + r);
  }

  /** The remainder is the only `s` in `[0, d)` with `a == d * t + s`. */
  lemma DivModUnique(a: int, d: int, t: int, s: int)
    requires d > 0 && a == d * t + s && 0 <= s < d
    ensures a % d == s
  {
    var q, r := a / d, a % d;
    assert d * (q - t) == s - r;
    if q > t {
      MulAtLeast(d, q - t);
    } else if q < t {
      MulAtLeast(d, t - q);
    }
  }

  lemma MulAtLeast(d: int, x: int)
    requires d > 0 && x >= 1
    ensures d * x >= d
  {
  }

  /**
   * Java's `(int)` narrowing of a `double` (modelled as a real): rounds toward
   * zero and saturates at the ends of the `int` range.
   */
  function DoubleToInt(d: real): (r: int32)
    ensures d >= 0x8000_0000 as real ==> r == INT_MAX
    ensures d <= -0x8000_0000 as real ==> r == INT_MIN
    ensures -0x8000_0000 as real < d < 0x8000_0000 as real ==>
              (0.0 <= d ==> r as real <= d < r as real + 1.0) &&
              (d < 0.0 ==> r as real - 1.0 < d <= r as real)
  {
    if d >= 0x8000_0000 as real then INT_MAX
    else if d <= -0x8000_0000 as real then INT_MIN
    else if d >= 0.0 then d.Floor as int32
    else (-((-d).Floor)) as int32
  }

  /** Floor division, as `MathHelper.floorDiv` computes it for a positive divisor. */
  function FloorDiv(x: int, y: int): (q: int)
    requires y > 0
    ensures y * q <= x < y * q + y
  {
    x / y
  }
}
